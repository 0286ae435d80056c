/** Recording a reply keeps the queue's invariants: everything it writes is accounted for by the one
    operation that goes from dispatched to succeeded or failed. */
module AnswerProofs {
  import opened Text
  import opened Domain
  import opened Policies
  import opened Jobs
  import opened Registers
  import opened Queue
  import opened Invariants
  import opened QueueProofs
  import opened AdvanceProofs

  // ----- What a verdict says -----

  lemma JudgeReason(p: Policy, ask: Ask, plan: Plan, reply: Reply, now: Time, id: Id)
    requires Judge(p, ask, plan, reply, now, id).Some?
    ensures Judge(p, ask, plan, reply, now, id).value.reason !in {Some(ProfileChanged), Some(DeadlineExceeded)}
  {}

  /** Distinct names that form the same set as an ascending list are as many. */
  lemma DistinctNamesCount(ps: seq<Parameter>, names: seq<string>)
    requires DistinctBy(ParameterName, ps) && Ascending(Self, names)
    requires NameSet(ps) == SetOf(names)
    ensures |ps| == |names|
  {
    var list := seq(|ps|, i requires 0 <= i < |ps| => ps[i].name);
    assert DistinctBy(Self, list) by {
      assert forall i, j | 0 <= i < j < |ps| :: ParameterName(ps[i]) != ParameterName(ps[j]);
    }
    forall x ensures x in list <==> x in names {
      assert x in list ==> x in NameSet(ps) by {
        if x in list {
          var i :| 0 <= i < |list| && list[i] == x;
          assert ps[i] in ps;
        }
      }
      assert x in NameSet(ps) ==> x in list by {
        if x in NameSet(ps) {
          var q :| q in ps && q.name == x;
          var i :| 0 <= i < |ps| && ps[i] == q;
          assert list[i] == x;
        }
      }
      assert x in names <==> x in SetOf(names);
    }
    SortAscends(Self, list);
    AscendingUnique(Self, SortBy(Self, list), names);
  }

  lemma {:induction false} MapItemsSize<T(!new)>(f: T -> Item, xs: seq<T>)
    ensures |MapItems(f, xs)| == |xs|
  {
    if xs != [] { MapItemsSize(f, xs[1..]); }
  }

  lemma {:induction false} MapItemsMembers<T(!new)>(f: T -> Item, xs: seq<T>, x: Item)
    ensures x in MapItems(f, xs) <==> exists y :: y in xs && f(y) == x
  {
    if xs != [] {
      MapItemsMembers(f, xs[1..], x);
      assert xs == [xs[0]] + xs[1..];
    }
  }

  lemma {:induction false} MapItemsAt<T(!new)>(f: T -> Item, xs: seq<T>, i: nat)
    requires i < |xs|
    ensures |MapItems(f, xs)| == |xs| && MapItems(f, xs)[i] == f(xs[i])
  {
    if i > 0 { MapItemsAt(f, xs[1..], i - 1); } else if |xs| > 1 { MapItemsAt(f, xs[1..], 0); }
  }

  lemma MappedDistinct<T(!new)>(key: T -> string, f: T -> Item, a: seq<T>)
    requires DistinctBy(key, a) && forall x :: f(x).name == key(x)
    ensures DistinctBy(ItemName, MapItems(f, a))
  {
    var m := MapItems(f, a);
    if a != [] { MapItemsAt(f, a, 0); }
    forall i, j | 0 <= i < j < |m| ensures ItemName(m[i]) != ItemName(m[j]) {
      MapItemsAt(f, a, i);
      MapItemsAt(f, a, j);
      assert key(a[i]) != key(a[j]);
    }
  }

  lemma {:induction false} AscendingSize(s: seq<string>)
    requires Ascending(Self, s)
    ensures |SetOf(s)| == |s|
  {
    if s != [] {
      var n := |s| - 1;
      AscendingSize(s[..n]);
      AscendingDistinct(Self, s);
      assert forall i | 0 <= i < n :: Self(s[i]) != Self(s[n]);
      assert SetOf(s) == SetOf(s[..n]) + {s[n]};
    }
  }

  /** An ascending list of as many of the names as there are is the list of all of them. */
  lemma AscendingAll(a: seq<string>, b: seq<string>)
    requires Ascending(Self, a) && Ascending(Self, b) && |a| == |b| && forall x | x in a :: x in b
    ensures a == b
  {
    AscendingSize(a);
    AscendingSize(b);
    assert SetOf(b) == SetOf(a) + (SetOf(b) - SetOf(a));
    forall x | x in b ensures x in a { assert x in SetOf(b) && x in SetOf(a); }
    AscendingUnique(Self, a, b);
  }

  /** A successful read of selected names returns exactly one item per name, in their order. */
  lemma JudgeSelected(p: Policy, ask: Ask, plan: Plan, reply: Reply, now: Time, id: Id)
    requires PermittedContract(p) && PlanFits(p.defaults, plan, plan.target, ask.scope, ask.path, ask.requested)
    requires Ascending(Self, ask.requested) && ask.requested != [] && ask.scope.DeviceInfo? && ask.kind.GetValues?
    requires DistinctReply(reply) && Judge(p, ask, plan, reply, now, id).Some?
    requires Judge(p, ask, plan, reply, now, id).value.reason.None?
    ensures ItemNames(Judge(p, ask, plan, reply, now, id).value.items) == ask.requested
  {
    var ps := reply.parameters;
    var kept := p.permitted(ps, plan);
    var mapped := MapItems(ValueItem, kept);
    var items := SortBy(ItemName, mapped);
    DistinctNamesCount(ps, plan.names);
    MapItemsSize(ValueItem, kept);
    MappedDistinct(ParameterName, ValueItem, kept);
    SortAscends(ItemName, mapped);
    forall n | n in ItemNames(items) ensures n in ask.requested {
      var i :| 0 <= i < |items| && ItemNames(items)[i] == n;
      assert items[i] in mapped;
      MapItemsMembers(ValueItem, kept, items[i]);
    }
    assert Ascending(Self, ItemNames(items)) by {
      forall i, j | 0 <= i < j < |items| ensures Less(Self(ItemNames(items)[i]), Self(ItemNames(items)[j])) {
        assert Less(ItemName(items[i]), ItemName(items[j]));
      }
    }
    AscendingAll(ItemNames(items), ask.requested);
  }

  /** Only a read of values hands observations to the registers, stamped with the operation and the time. */
  ghost predicate Stamped(v: Verdict, ask: Ask, now: Time, id: Id) {
    && (v.inventory.Some? ==>
          ask.kind.GetValues? && v.inventory.value.via.GetParameterValues?
          && v.inventory.value.operation == Some(id) && v.inventory.value.receivedAt == now)
    && (v.telemetry.Some? ==>
          ask.kind.GetValues? && v.telemetry.value.receivedAt == now && v.telemetry.value.operation == id
          && CollectionOk(v.telemetry.value))
  }

  lemma JudgeStamps(p: Policy, ask: Ask, plan: Plan, reply: Reply, now: Time, id: Id)
    requires ObservationContract(p) && PlanFits(p.defaults, plan, plan.target, ask.scope, ask.path, ask.requested)
    requires DistinctReply(reply) && Judge(p, ask, plan, reply, now, id).Some?
    ensures Stamped(Judge(p, ask, plan, reply, now, id).value, ask, now, id)
  {}

  // ----- What a reply writes to the catalog -----

  /** Every later row is the earlier one, or was written for one of the first `n` names. */
  ghost predicate Catalogues(catalog: map<PathKey, CatalogRow>, later: map<PathKey, CatalogRow>, cpe: Id,
                             names: seq<Info>, n: nat, id: Id, now: Time)
    requires n <= |names|
  {
    && (forall k | k in catalog :: k in later)
    && (forall k | k in later ::
          || (k in catalog && later[k] == catalog[k])
          || (k.0 == cpe && later[k].operation == id && later[k].observedAt == now
              && later[k].isObject == IsObjectName(k.1)
              && exists i :: 0 <= i < n && names[i].name == k.1))
    && (forall i | 0 <= i < n :: (cpe, names[i].name) in later
          && (later[(cpe, names[i].name)].operation == id
              || ((cpe, names[i].name) in catalog && now < catalog[(cpe, names[i].name)].observedAt)))
  }

  /** One upsert touches one row: it is as it was, being newer, or it is the new one. */
  lemma CatalogOneRow(catalog: map<PathKey, CatalogRow>, cpe: Id, i: Info, id: Id, now: Time)
    ensures var later, key := CatalogOne(catalog, cpe, i, id, now), (cpe, i.name);
            && (forall k | k != key :: (k in later <==> k in catalog) && (k in catalog ==> later[k] == catalog[k]))
            && key in later
            && ((key in catalog && later[key] == catalog[key] && now < catalog[key].observedAt)
                || (later[key].operation == id && later[key].observedAt == now
                    && later[key].isObject == IsObjectName(i.name)))
  {
    hide IsObjectName;
  }

  lemma OneMoreCatalogued(catalog: map<PathKey, CatalogRow>, mid: map<PathKey, CatalogRow>, cpe: Id, names: seq<Info>,
                          n: nat, id: Id, now: Time)
    requires 0 < n <= |names| && Catalogues(catalog, mid, cpe, names, n - 1, id, now)
    ensures Catalogues(catalog, CatalogOne(mid, cpe, names[n - 1], id, now), cpe, names, n, id, now)
  {
    hide IsObjectName, CatalogOne;
    CatalogOneRow(mid, cpe, names[n - 1], id, now);
    var later, key := CatalogOne(mid, cpe, names[n - 1], id, now), (cpe, names[n - 1].name);
    forall k | k in later && !(k in catalog && later[k] == catalog[k])
      ensures k.0 == cpe && later[k].operation == id && later[k].observedAt == now
              && later[k].isObject == IsObjectName(k.1)
      ensures exists i :: 0 <= i < n && names[i].name == k.1
    {
      if k in mid && later[k] == mid[k] {
        var i :| 0 <= i < n - 1 && names[i].name == k.1;
      } else {
        assert k == key && names[n - 1].name == k.1;
      }
    }
  }

  lemma {:induction false} CatalogAllCatalogues(catalog: map<PathKey, CatalogRow>, cpe: Id, names: seq<Info>, n: nat,
                                                id: Id, now: Time)
    requires n <= |names|
    ensures Catalogues(catalog, CatalogAll(catalog, cpe, names, n, id, now), cpe, names, n, id, now)
  {
    if n > 0 {
      CatalogAllCatalogues(catalog, cpe, names, n - 1, id, now);
      OneMoreCatalogued(catalog, CatalogAll(catalog, cpe, names, n - 1, id, now), cpe, names, n, id, now);
    }
  }

  /** The rows that cite the reply's operation are at most as many as the names written. */
  lemma CitedAtMost(catalog: map<PathKey, CatalogRow>, later: map<PathKey, CatalogRow>, cpe: Id, names: seq<Info>,
                    id: Id, now: Time)
    requires Catalogues(catalog, later, cpe, names, |names|, id, now) && Cited(catalog, id) == {}
    ensures |Cited(later, id)| <= |names|
  {
    var keys := set i | 0 <= i < |names| :: (cpe, names[i].name);
    forall k | k in Cited(later, id) ensures k in keys {
      assert k in catalog ==> catalog[k].operation != id by { assert k !in Cited(catalog, id); }
    }
    assert Cited(later, id) <= keys;
    Smaller(Cited(later, id), keys);
    KeysAtMost(cpe, names, |names|);
  }

  lemma Smaller<T>(a: set<T>, b: set<T>)
    requires a <= b
    ensures |a| <= |b|
  {
    assert b == a + (b - a);
  }

  lemma {:induction false} KeysAtMost(cpe: Id, names: seq<Info>, n: nat)
    requires n <= |names|
    ensures |set i | 0 <= i < n :: (cpe, names[i].name)| <= n
  {
    if n > 0 {
      KeysAtMost(cpe, names, n - 1);
      assert (set i | 0 <= i < n :: (cpe, names[i].name))
             == (set i | 0 <= i < n - 1 :: (cpe, names[i].name)) + {(cpe, names[n - 1].name)};
    }
  }

  /** Rows that cite operations of another CPE, or operations that asked for another path, are not touched. */
  lemma OthersCiteTheSame(catalog: map<PathKey, CatalogRow>, later: map<PathKey, CatalogRow>, ops: map<Id, Op>, cpe: Id,
                          names: seq<Info>, id: Id, now: Time, path: string, ids: set<Id>)
    requires Catalogues(catalog, later, cpe, names, |names|, id, now) && CatalogSourced(ops, catalog)
    requires forall i | 0 <= i < |names| :: DirectChild(path, names[i].name)
    requires IsObjectName(path) && id !in ids
    requires forall i | i in ids ::
      i in ops && (ops[i].ask.cpe == cpe ==> AskedPath(ops[i].ask) != path && IsObjectName(AskedPath(ops[i].ask)))
    ensures CitedBy(later, ids) == CitedBy(catalog, ids)
  {}

  // ----- Accounting for the catalog rows -----

  lemma DoneOwned(job: Job, ops: map<Id, Op>)
    requires AllIn(job.opIds, ops) && JobOk(job, TraceOf(job.opIds, ops))
    ensures forall i | i in DoneIds(job) :: i in ops && ops[i].ask.cpe == job.cpe
    ensures job.current.Some? ==> job.current.value in ops && ops[job.current.value].ask.cpe == job.cpe
  {}

  /** A walk asked for every path once. */
  lemma DoneApart(job: Job, ops: map<Id, Op>)
    requires AllIn(job.opIds, ops) && JobOk(job, TraceOf(job.opIds, ops))
    requires job.spec.kind.WalkJob? && job.current.Some?
    ensures job.current.value in ops && job.current.value !in DoneIds(job)
    ensures forall i | i in DoneIds(job) ::
              i in ops && AskedPath(ops[i].ask) != AskedPath(ops[job.current.value].ask)
                  && IsObjectName(AskedPath(ops[i].ask))
  {
    CurrentIsLast(job, ops);
    var trace, last := TraceOf(job.opIds, ops), |job.opIds| - 1;
    var root := job.spec.root.value;
    forall i | i in DoneIds(job)
      ensures i in ops && AskedPath(ops[i].ask) != AskedPath(ops[job.current.value].ask)
              && IsObjectName(AskedPath(ops[i].ask))
    {
      var n :| 0 <= n < last && job.opIds[n] == i;
      assert trace[n] == ops[i] && i in job.opIds && trace[last] == ops[job.current.value];
      assert Below(root, Path(trace[n]), DepthOf(root, trace[n]));
      ConcreteEnds(Path(trace[n]));
      assert Path(trace[n]) != Path(trace[last]);
    }
  }

  lemma CitedSingle(catalog: map<PathKey, CatalogRow>, id: Id)
    ensures CitedBy(catalog, {id}) == Cited(catalog, id)
  {}

  /** One running walk stays accounted for when the rows of a reply are written. */
  lemma OneAccounted(db: Db, job: Job, id: Id, path: string, names: seq<Info>, later: map<PathKey, CatalogRow>,
                     now: Time)
    requires AllIn(job.opIds, db.ops) && JobOk(job, TraceOf(job.opIds, db.ops)) && job.spec.kind.WalkJob?
    requires CatalogSourced(db.ops, db.catalog) && id in db.ops && !db.ops[id].state.Succeeded?
    requires path == AskedPath(db.ops[id].ask) && IsObjectName(path)
    requires Catalogues(db.catalog, later, db.ops[id].ask.cpe, names, |names|, id, now)
    requires forall i | 0 <= i < |names| :: DirectChild(path, names[i].name)
    requires job.cpe == db.ops[id].ask.cpe ==>
      job.current == Some(id) && job.entryCount + |names| <= job.spec.maxEntries
    requires job.entryCount == |CitedBy(db.catalog, DoneIds(job))|
    requires job.current.Some? ==> job.entryCount + |Cited(db.catalog, job.current.value)| <= job.spec.maxEntries
    ensures job.entryCount == |CitedBy(later, DoneIds(job))|
    ensures job.current.Some? ==> job.entryCount + |Cited(later, job.current.value)| <= job.spec.maxEntries
  {
    hide JobOk, AllIn, TraceOf, CatalogSourced, Catalogues, CitedBy, Cited, DoneIds, IsObjectName, DirectChild,
      AskedPath;
    var cpe := db.ops[id].ask.cpe;
    DoneOwned(job, db.ops);
    if job.cpe == cpe {
      DoneApart(job, db.ops);
      OthersCiteTheSame(db.catalog, later, db.ops, cpe, names, id, now, path, DoneIds(job));
      NoneCited(db.catalog, db.ops, id);
      CitedAtMost(db.catalog, later, cpe, names, id, now);
    } else {
      OthersCiteTheSame(db.catalog, later, db.ops, cpe, names, id, now, path, DoneIds(job));
      if job.current.Some? {
        var c := job.current.value;
        OthersCiteTheSame(db.catalog, later, db.ops, cpe, names, id, now, path, {c});
        CitedSingle(db.catalog, c);
        CitedSingle(later, c);
      }
    }
  }

  /** The names written respect the entry budget of the walk they belong to. */
  ghost predicate WithinBudget(jobs: map<Id, Job>, cpe: Id, id: Id, count: nat) {
    forall j | j in jobs && jobs[j].state.JobRunning? && jobs[j].spec.kind.WalkJob? && jobs[j].cpe == cpe ::
      jobs[j].current == Some(id) && jobs[j].entryCount + count <= jobs[j].spec.maxEntries
  }

  lemma AnswerAccounted(p: Policy, db: Db, id: Id, path: string, names: seq<Info>, later: map<PathKey, CatalogRow>,
                        now: Time)
    requires Core(p, db) && id in db.ops && !db.ops[id].state.Succeeded?
    requires path == AskedPath(db.ops[id].ask) && IsObjectName(path)
    requires Catalogues(db.catalog, later, db.ops[id].ask.cpe, names, |names|, id, now)
    requires forall i | 0 <= i < |names| :: DirectChild(path, names[i].name)
    requires WithinBudget(db.jobs, db.ops[id].ask.cpe, id, |names|)
    ensures Accounted(db.jobs, later)
  {
    hide JobOk, AllIn, TraceOf, CatalogSourced, ValuesSourced, StoreOk, Coupled, OneActive, JobsDrive, OpKeys,
      JobKeys, OneRunning, Catalogues, CitedBy, Cited, DoneIds, IsObjectName, DirectChild, AskedPath, OpsLinked,
      SessionsLinked, CpesLinked, JobsLinked;
    forall j | j in db.jobs && db.jobs[j].state.JobRunning? && db.jobs[j].spec.kind.WalkJob?
      ensures db.jobs[j].entryCount == |CitedBy(later, DoneIds(db.jobs[j]))|
      ensures db.jobs[j].current.Some? ==>
                db.jobs[j].entryCount + |Cited(later, db.jobs[j].current.value)| <= db.jobs[j].spec.maxEntries
    {
      OneAccounted(db, db.jobs[j], id, path, names, later, now);
    }
  }

  // ----- Truncation to the budget -----

  /** The names kept were reported; a job record changes at most by meeting its entry limit. */
  ghost predicate TruncatePost(jobs: map<Id, Job>, cpe: Id, id: Id, names: seq<Info>, kept: seq<Info>,
                               later: map<Id, Job>) {
    && (forall i | i in kept :: i in names) && |kept| <= |names|
    && (later == jobs || exists j ::
          j in jobs && jobs[j].state.JobRunning? && later == jobs[j := Limited(jobs[j], MaxEntries)])
    && (kept != names ==> forall j | j in later && later[j].state.JobRunning? && later[j].cpe == cpe ::
        MaxEntries in later[j].limits)
    && (forall j | j in jobs && jobs[j].state.JobRunning? && jobs[j].cpe == cpe && jobs[j].current == Some(id)
                   && jobs[j].entryCount <= jobs[j].spec.maxEntries ::
          jobs[j].entryCount + |kept| <= jobs[j].spec.maxEntries)
  }

  lemma TruncateHolds(jobs: map<Id, Job>, cpe: Id, id: Id, names: seq<Info>)
    requires OneRunning(jobs)
    requires forall j | j in jobs :: jobs[j].entryCount <= jobs[j].spec.maxEntries
    ensures var (kept, later) := Truncate(jobs, cpe, id, names); TruncatePost(jobs, cpe, id, names, kept, later)
  {
    var (kept, later) := Truncate(jobs, cpe, id, names);
    SortMembers(InfoName, names);
    var found := ActiveJob(jobs, cpe);
    if found.Some? {
      var j := found.value;
      assert forall k | k in jobs && jobs[k].state.JobRunning? && jobs[k].cpe == cpe :: k == j;
      assert kept != names ==> later == jobs[j := Limited(jobs[j], MaxEntries)];
    }
  }

  lemma LimitKeepsJob(job: Job, trace: seq<Op>)
    requires JobOk(job, trace) && job.state.JobRunning?
    ensures JobOk(Limited(job, MaxEntries), trace)
  {}

  lemma LimitDrives(jobs: map<Id, Job>, ops: map<Id, Op>, j: Id)
    requires JobsDrive(jobs, ops) && j in jobs
    ensures JobsDrive(jobs[j := Limited(jobs[j], MaxEntries)], ops)
  {}

  /** Meeting the entry limit keeps everything that speaks of jobs. */
  lemma LimitKeeps(db: Db, j: Id)
    requires j in db.jobs && db.jobs[j].state.JobRunning?
    requires JobsLinked(db.next, db.jobs, db.store.cpes.Keys) && OneRunning(db.jobs) && JobKeys(db.jobs)
    requires JobsDrive(db.jobs, db.ops) && JobsOk(db.jobs, db.ops)
    ensures var jobs := db.jobs[j := Limited(db.jobs[j], MaxEntries)];
            && JobsLinked(db.next, jobs, db.store.cpes.Keys) && OneRunning(jobs) && JobKeys(jobs)
            && JobsDrive(jobs, db.ops) && JobsOk(jobs, db.ops)
  {
    hide JobOk, AllIn, TraceOf, JobsDrive, OneRunning, JobKeys, JobsLinked;
    var next := Limited(db.jobs[j], MaxEntries);
    LimitDrives(db.jobs, db.ops, j);
    LimitKeepsJob(db.jobs[j], TraceOf(db.jobs[j].opIds, db.ops));
    ReplaceKeepsTables(db, j, next);
    ReplaceKeepsJobs(db.jobs, db.ops, j, next);
  }

  lemma LimitKeepsAccounted(jobs: map<Id, Job>, catalog: map<PathKey, CatalogRow>, j: Id)
    requires j in jobs && jobs[j].state.JobRunning? && Accounted(jobs, catalog)
    ensures Accounted(jobs[j := Limited(jobs[j], MaxEntries)], catalog)
  {}

  // ----- Provenance of what is written -----

  /** `op` answered for `ask` at `now`. */
  ghost predicate Answered(was: Op, op: Op, now: Time) {
    && op.ask == was.ask && op.expiresAt == was.expiresAt && (op.state.Succeeded? || op.state.Failed?)
    && op.finishedAt == Some(now) && op.reason != Some(ProfileChanged)
  }

  lemma AnswerEvolves(ops: map<Id, Op>, id: Id, op: Op, now: Time)
    requires id in ops && Active(ops[id]) && Answered(ops[id], op, now)
    ensures Evolves(ops, ops[id := op]) && Calmer(ops, ops[id := op]) && ops[id := op].Keys == ops.Keys
  {}

  lemma AnswerKeepsCoupled(db: Db, token: string, id: Id, op: Op, digest: Digest, now: Time)
    requires Coupled(db.ops, db.attempts, db.sessions) && Concerns(db, token, id) && db.ops[id].state.Dispatched?
    requires Answered(db.ops[id], op, now) && OpOk(op, true)
    ensures Coupled(db.ops[id := op], db.attempts[id := db.attempts[id].(digest := Some(digest))],
                    Finish(db.sessions, token, now))
  {
    hide OpOk;
    var ops, attempts, sessions := db.ops[id := op], db.attempts[id := db.attempts[id].(digest := Some(digest))],
        Finish(db.sessions, token, now);
    assert attempts.Keys == db.attempts.Keys;
    forall i | i in attempts
      ensures i in ops && attempts[i].session in sessions
              && AttemptOk(ops[i], attempts[i], sessions[attempts[i].session])
    {
      assert AttemptOk(db.ops[i], db.attempts[i], db.sessions[db.attempts[i].session]);
    }
    forall t | t in sessions && sessions[t].state.AwaitingResponse? ensures exists i ::
        i in attempts && attempts[i].session == t {
      var i :| i in db.attempts && db.attempts[i].session == t;
      assert i in attempts && attempts[i].session == t;
    }
  }

  lemma AnswerCatalogSourced(ops: map<Id, Op>, catalog: map<PathKey, CatalogRow>, later: map<PathKey, CatalogRow>,
                             names: seq<Info>, id: Id, now: Time)
    requires CatalogSourced(ops, catalog) && id in ops && ops[id].finishedAt == Some(now)
    requires names != [] ==> ops[id].state.Succeeded? && ops[id].ask.kind.GetNames?
    requires Catalogues(catalog, later, ops[id].ask.cpe, names, |names|, id, now)
    requires IsObjectName(AskedPath(ops[id].ask))
    requires forall i | i in names :: ReportedUnder(AskedPath(ops[id].ask), i.name)
    ensures CatalogSourced(ops, later)
  {
    hide Concrete, ReportedUnder, DirectChild;
    forall i | i in names
      ensures DirectChild(AskedPath(ops[id].ask), i.name) && (IsObjectName(i.name) ==> Concrete(i.name))
    {
      ReportedIsChild(AskedPath(ops[id].ask), i.name);
    }
  }

  lemma {:induction false} ValuesAllSourced(defaults: seq<string>, ops: map<Id, Op>, values: map<PathKey, ValueRow>,
                                            cpe: Id, ps: seq<Parameter>, n: nat, id: Id, now: Time)
    requires n <= |ps| && ValuesSourced(defaults, ops, values) && id in ops && ops[id].finishedAt == Some(now)
             && ops[id].ask.cpe == cpe
    requires ps != [] ==> ops[id].state.Succeeded? && ops[id].ask.kind.GetValues? && ops[id].ask.scope.DeviceInfo?
    requires forall q | q in ps :: q.name in AskedNames(defaults, ops[id].ask)
    ensures ValuesSourced(defaults, ops, ValuesAll(values, cpe, ps, n, id, now))
  {
    if n > 0 {
      ValuesAllSourced(defaults, ops, values, cpe, ps, n - 1, id, now);
      assert ps[n - 1] in ps;
    }
  }

  lemma ObservationSourced(ops: map<Id, Op>, rows: map<TelemetryKey, TelemetryRow>, cpe: Id, c: Collection,
                           o: TelemetryObservation)
    requires TelemetrySourced(ops, rows) && ReadAt(ops, c.operation, cpe, c.receivedAt)
    ensures TelemetrySourced(ops, RecordObservation(rows, cpe, c, o))
  {
    hide ReadAt;
  }

  lemma {:induction false} ObservationsSourced(ops: map<Id, Op>, rows: map<TelemetryKey, TelemetryRow>, cpe: Id,
                                               c: Collection, n: nat)
    requires n <= |c.fields| && TelemetrySourced(ops, rows) && ReadAt(ops, c.operation, cpe, c.receivedAt)
    ensures TelemetrySourced(ops, RecordObservations(rows, cpe, c, n))
  {
    hide TelemetrySourced, ReadAt, RecordObservation;
    if n > 0 {
      ObservationsSourced(ops, rows, cpe, c, n - 1);
      ObservationSourced(ops, RecordObservations(rows, cpe, c, n - 1), cpe, c, c.fields[n - 1]);
    }
  }

  lemma WriteSourced(ops: map<Id, Op>, cpe: Id, was: Option<FieldRow>, obs: TextObservation, inv: Inventory)
    requires was.Some? ==> RowSourced(ops, cpe, was.value)
    requires !obs.NotReported? && (inv.operation.Some? ==> ReadAt(ops, inv.operation.value, cpe, inv.receivedAt))
    ensures RowSourced(ops, cpe, WriteField(was, obs, inv))
  {}

  lemma InventorySourced(ops: map<Id, Op>, rows: map<(Id, Field), FieldRow>, cpe: Id, inv: Inventory)
    requires FieldsSourced(ops, rows)
    requires inv.operation.Some? ==> ReadAt(ops, inv.operation.value, cpe, inv.receivedAt)
    ensures FieldsSourced(ops, WrittenFields(rows, cpe, inv))
  {
    hide ReadAt, WriteField;
    var later := WrittenFields(rows, cpe, inv);
    forall k | k in later ensures RowSourced(ops, k.0, later[k]) {
      if k.0 == cpe && Applies(rows, cpe, k.1, inv) {
        WriteSourced(ops, cpe, RowAt(rows, cpe, k.1), Observed(inv, k.1), inv);
        assert later[k] == WriteField(RowAt(rows, cpe, k.1), Observed(inv, k.1), inv);
      } else {
        assert k in rows && later[k] == rows[k];
      }
    }
  }

  lemma AnswerStoreOk(ops: map<Id, Op>, s: Store, cpe: Id, v: Verdict, ask: Ask, now: Time, id: Id)
    requires cpe in s.cpes && StoreOk(ops, s) && Stamped(v, ask, now, id)
    requires id in ops && ops[id].ask == ask && ask.cpe == cpe
    requires ops[id].finishedAt == Some(now) && (ops[id].state.Succeeded? || ops[id].state.Failed?)
    ensures StoreOk(ops, Stored(s, cpe, v))
    ensures Stored(s, cpe, v).cpes.Keys == s.cpes.Keys
  {
    hide FieldsSourced, TelemetrySourced, FieldsChecked, TelemetryChecked, ApprovalSafe, CollectionOk, WrittenFields,
      WrittenCpe, NewValue, Revoked;
    var s1 := if v.inventory.Some? then UpdateInventory(s, cpe, v.inventory.value) else s;
    if v.inventory.Some? {
      UpdateKeepsApprovalSafe(s, cpe, v.inventory.value);
      UpdateKeepsFieldsChecked(s, cpe, v.inventory.value);
      InventorySourced(ops, s.fields, cpe, v.inventory.value);
    }
    if v.telemetry.Some? {
      var c := v.telemetry.value;
      ObservationsKeepChecks(s1.telemetry, cpe, c, |c.fields|);
      ObservationsSourced(ops, s1.telemetry, cpe, c, |c.fields|);
      ApprovalSafeTelemetry(s1, cpe, c);
    }
  }

  lemma ApprovalSafeTelemetry(s: Store, cpe: Id, c: Collection)
    requires ApprovalSafe(s)
    ensures ApprovalSafe(UpdateTelemetry(s, cpe, c))
  {}

  // ----- All writes of one reply -----

  /** A judged reply to the operation its session is about. */
  ghost predicate Answering(p: Policy, db: Db, token: string, id: Id, plan: Plan, reply: Reply, v: Verdict, now: Time) {
    && Contract(p) && DistinctReply(reply)
    && Concerns(db, token, id) && db.ops[id].state.Dispatched? && db.sessions[token].cpe in db.store.cpes
    && PlanFits(p.defaults, plan, plan.target, db.ops[id].ask.scope, db.ops[id].ask.path, db.ops[id].ask.requested)
    && Judge(p, db.ops[id].ask, plan, reply, now, id) == Some(v)
  }

  lemma AnsweredOk(p: Policy, db: Db, token: string, id: Id, plan: Plan, reply: Reply, v: Verdict,
                   evidence: Option<string>, now: Time)
    requires Answering(p, db, token, id, plan, reply, v, now) && OpsOk(db.ops, db.attempts.Keys)
    ensures var op := AnsweredOp(db.ops[id], v, reply, evidence, now);
            Answered(db.ops[id], op, now) && OpOk(op, true) && Stamped(v, op.ask, now, id)
  {
    hide Judge, PlanContract, PermittedContract, DiscoveryContract, CollectionOk, Ascending;
    var ask := db.ops[id].ask;
    assert OpOk(db.ops[id], true);
    JudgeReason(p, ask, plan, reply, now, id);
    JudgeStamps(p, ask, plan, reply, now, id);
    if v.reason.None? && ask.kind.GetValues? && ask.scope.DeviceInfo? && ask.requested != [] {
      JudgeSelected(p, ask, plan, reply, now, id);
    }
  }

  /** The names to catalogue were all reported directly under the path that was asked. */
  lemma ReportedNames(p: Policy, db: Db, token: string, id: Id, plan: Plan, reply: Reply, v: Verdict, now: Time)
    requires Answering(p, db, token, id, plan, reply, v, now) && OpsOk(db.ops, db.attempts.Keys)
    requires reply.NamesReply? && v.reason.None?
    ensures db.ops[id].ask.kind.GetNames? && IsObjectName(AskedPath(db.ops[id].ask))
    ensures forall i | i in reply.names :: ReportedUnder(AskedPath(db.ops[id].ask), i.name)
  {
    hide PlanContract, PermittedContract, DiscoveryContract, ObservationContract, ReportedUnder, Ascending;
    var ask := db.ops[id].ask;
    assert OpOk(db.ops[id], id in db.attempts);
    assert plan.path == AskedPath(ask);
    if ask.scope.Discovery? { ConcreteEnds(ask.path.value); }
  }

  lemma BudgetOfTruncated(p: Policy, db: Db, id: Id, names: seq<Info>)
    requires Core(p, db) && id in db.ops && Active(db.ops[id])
    ensures var (kept, later) := Truncate(db.jobs, db.ops[id].ask.cpe, id, names);
            && TruncatePost(db.jobs, db.ops[id].ask.cpe, id, names, kept, later)
            && WithinBudget(db.jobs, db.ops[id].ask.cpe, id, |kept|)
  {
    hide Truncate, TraceOf, AllIn, Walking, Reading, Coupled, OneActive, OpKeys, JobKeys, Accounted, CatalogSourced,
      ValuesSourced, StoreOk, OpsLinked, SessionsLinked, CpesLinked, JobsLinked, Owned, Over, AllSucceeded,
      DistinctIds;
    forall j | j in db.jobs ensures db.jobs[j].entryCount <= db.jobs[j].spec.maxEntries {
      EntriesBounded(db.jobs[j], TraceOf(db.jobs[j].opIds, db.ops));
    }
    TruncateHolds(db.jobs, db.ops[id].ask.cpe, id, names);
  }

  /** What the job and catalog tables keep when the names `kept` are written for the answered operation. */
  ghost predicate JobTablesOk(db: Db, jobs: map<Id, Job>, ops: map<Id, Op>, catalog: map<PathKey, CatalogRow>) {
    && JobsLinked(db.next, jobs, db.store.cpes.Keys) && OneRunning(jobs) && JobKeys(jobs)
    && JobsDrive(jobs, ops) && JobsOk(jobs, ops) && Accounted(jobs, catalog) && CatalogSourced(ops, catalog)
  }

  lemma PlainJobTables(p: Policy, db: Db, id: Id, op: Op, now: Time)
    requires Core(p, db) && id in db.ops && Active(db.ops[id]) && Answered(db.ops[id], op, now)
    ensures JobTablesOk(db, db.jobs, db.ops[id := op], db.catalog)
    ensures Evolves(db.ops, db.ops[id := op]) && OneActive(db.ops[id := op]) && OpKeys(db.ops[id := op])
    ensures ValuesSourced(p.defaults, db.ops[id := op], db.values) && StoreOk(db.ops[id := op], db.store)
    ensures OpsLinked(db.next, db.ops[id := op], db.store.cpes.Keys)
  {
    hide OneRunning, OneActive, JobsDrive, OpKeys, JobKeys, JobsOk, Accounted, CatalogSourced, ValuesSourced, StoreOk,
      Coupled, Evolves, Calmer, SessionsLinked, JobsLinked, CpesLinked;
    var ops := db.ops[id := op];
    AnswerEvolves(db.ops, id, op, now);
    CalmKeepsActive(db.jobs, db.ops, ops);
    EvolveKeepsKeys(db.ops, ops);
    EvolveKeepsJobs(db.jobs, db.ops, ops);
    EvolveKeepsSources(p.defaults, db.ops, ops, db.catalog, db.values, db.store);
  }

  lemma NamedJobTables(p: Policy, db: Db, id: Id, op: Op, names: seq<Info>, now: Time)
    requires Core(p, db) && id in db.ops && Active(db.ops[id]) && Answered(db.ops[id], op, now) && op.state.Succeeded?
    requires op.ask.kind.GetNames? && IsObjectName(AskedPath(op.ask))
    requires forall i | i in names :: ReportedUnder(AskedPath(op.ask), i.name)
    ensures var (kept, jobs) := Truncate(db.jobs, op.ask.cpe, id, names);
            JobTablesOk(db, jobs, db.ops[id := op], CatalogAll(db.catalog, op.ask.cpe, kept, |kept|, id, now))
  {
    hide Truncate, Core, CatalogAll, JobsLinked, OneRunning, JobKeys, JobsDrive, JobsOk, Accounted, CatalogSourced,
      Catalogues, WithinBudget, ReportedUnder, IsObjectName, DirectChild, OneActive, OpKeys, OpsLinked, ValuesSourced,
      StoreOk, Evolves, AskedPath;
    var (kept, jobs) := Truncate(db.jobs, op.ask.cpe, id, names);
    var cpe, ops, path := op.ask.cpe, db.ops[id := op], AskedPath(op.ask);
    var later := CatalogAll(db.catalog, cpe, kept, |kept|, id, now);
    PlainJobTables(p, db, id, op, now);
    BudgetOfTruncated(p, db, id, names);
    CatalogAllCatalogues(db.catalog, cpe, kept, |kept|, id, now);
    forall i | 0 <= i < |kept| ensures DirectChild(path, kept[i].name) {
      assert kept[i] in kept;
      ReportedIsChild(path, kept[i].name);
    }
    AnswerAccounted(p, db, id, path, kept, later, now);
    AnswerCatalogSourced(ops, db.catalog, later, kept, id, now);
    if jobs != db.jobs {
      var j :| j in db.jobs && db.jobs[j].state.JobRunning? && jobs == db.jobs[j := Limited(db.jobs[j], MaxEntries)];
      LimitKeeps(db.(ops := ops), j);
      LimitKeepsAccounted(db.jobs, later, j);
    }
  }

  lemma AnswerSteadyBut(p: Policy, db: Db, id: Id, op: Op, later: map<Id, Job>)
    requires Core(p, db) && Steady(db.jobs, db.ops) && id in db.ops && op.ask == db.ops[id].ask
    requires later == db.jobs || exists j :: j in db.jobs && later == db.jobs[j := Limited(db.jobs[j], MaxEntries)]
    ensures SteadyBut(later, db.ops[id := op], op.ask.cpe)
  {
    hide JobOk, AllIn, TraceOf, CatalogSourced, ValuesSourced, StoreOk, Coupled, OneActive, JobsDrive, OpKeys,
      JobKeys, OneRunning, Accounted, OpsLinked, SessionsLinked, CpesLinked, JobsLinked;
    forall j | j in db.jobs && db.jobs[j].state.JobRunning? && db.jobs[j].cpe != op.ask.cpe
      ensures db.jobs[j].current.Some? && db.jobs[j].current.value != id
    {
      DoneOwned(db.jobs[j], db.ops);
    }
  }

  /** Everything a reply writes keeps the invariants, up to the job that it may now advance. */
  lemma RecordedKeeps(p: Policy, db: Db, token: string, id: Id, plan: Plan, reply: Reply, v: Verdict,
                      evidence: Option<string>, now: Time)
    requires Inv(p, db) && Answering(p, db, token, id, plan, reply, v, now)
    ensures id in db.attempts
    ensures var d := Recorded(p, db, token, id, plan, reply, v, evidence, now);
            Core(p, d) && Evolves(db.ops, d.ops) && SteadyBut(d.jobs, d.ops, db.sessions[token].cpe)
  {
    hide JobsLinked, OneRunning, JobKeys, JobsDrive, JobsOk, Accounted, CatalogSourced, OneActive, OpKeys, OpsLinked,
      ValuesSourced, StoreOk, Evolves, Steady, SteadyBut, CpesLinked, Answering, AnsweredOp, Stamped, Stored,
      CatalogAll, ValuesAll, Truncate, AskedPath, AskedNames, OpsOk, AttemptsOk, OneAttemptEach, WaitersAttempted,
      Judge, OpOk, DigestOf, Contract;
    AnsweringFacts(p, db, token, id, plan, reply, v, now);
    var cpe := db.sessions[token].cpe;
    var op := AnsweredOp(db.ops[id], v, reply, evidence, now);
    var ops := db.ops[id := op];
    AnsweredOk(p, db, token, id, plan, reply, v, evidence, now);
    AnswerKeepsCoupled(db, token, id, op, DigestOf(reply, v), now);
    PlainJobTables(p, db, id, op, now);
    AnswerStoreOk(ops, db.store, cpe, v, op.ask, now, id);
    AnsweredState(db.ops[id], v, reply, evidence, now);
    var d := Recorded(p, db, token, id, plan, reply, v, evidence, now);
    RecordedValues(p, db, token, id, plan, reply, v, ops, now);
    if reply.NamesReply? && v.reason.None? {
      ReportedNames(p, db, token, id, plan, reply, v, now);
      NamedJobTables(p, db, id, op, reply.names, now);
      BudgetOfTruncated(p, db, id, reply.names);
    } else {
      CatalogNone(db.catalog, cpe, id, now);
    }
    AnswerSteadyBut(p, db, id, op, d.jobs);
    assert SessionsLinked(d.sessions, d.store.cpes.Keys);
  }

  lemma AnsweringFacts(p: Policy, db: Db, token: string, id: Id, plan: Plan, reply: Reply, v: Verdict, now: Time)
    requires Answering(p, db, token, id, plan, reply, v, now)
    ensures id in db.ops && id in db.attempts && token in db.sessions && db.ops[id].state.Dispatched?
    ensures db.sessions[token].cpe == db.ops[id].ask.cpe && db.sessions[token].cpe in db.store.cpes
            && Concerns(db, token, id)
  {}

  lemma AnsweredState(was: Op, v: Verdict, reply: Reply, evidence: Option<string>, now: Time)
    ensures var op := AnsweredOp(was, v, reply, evidence, now);
            op.ask == was.ask && (op.state.Succeeded? <==> v.reason.None?) && op.finishedAt == Some(now)
  {}

  lemma CatalogNone(catalog: map<PathKey, CatalogRow>, cpe: Id, id: Id, now: Time)
    ensures CatalogAll(catalog, cpe, [], 0, id, now) == catalog
  {}

  lemma RecordedValues(p: Policy, db: Db, token: string, id: Id, plan: Plan, reply: Reply, v: Verdict, ops: map<Id, Op>,
                       now: Time)
    requires Answering(p, db, token, id, plan, reply, v, now) && ValuesSourced(p.defaults, ops, db.values)
    requires id in ops && ops[id].ask == db.ops[id].ask && ops[id].finishedAt == Some(now)
    requires ops[id].state.Succeeded? <==> v.reason.None?
    ensures var ps := if reply.ValuesReply? && v.reason.None? then p.permitted(reply.parameters, plan) else [];
            ValuesSourced(p.defaults, ops, ValuesAll(db.values, db.sessions[token].cpe, ps, |ps|, id, now))
  {
    hide ValuesSourced, PlanContract, DiscoveryContract, ObservationContract, Ascending;
    var ps := if reply.ValuesReply? && v.reason.None? then p.permitted(reply.parameters, plan) else [];
    ValuesAllSourced(p.defaults, ops, db.values, db.sessions[token].cpe, ps, |ps|, id, now);
  }
}
