/** A run in which a discovery job succeeds although it never asked for an object that its own reply named: the catalog
    already held that object from a later time. */
module OvertakenWalk {
  import opened Text
  import opened Domain
  import opened Policies
  import opened Jobs
  import opened Registers
  import opened Queue
  import opened QueueProofs
  import opened AdvanceProofs
  import opened Runs
  import opened QuietSteps
  import opened ReplyLog
  import opened WalkCompleteness
  import opened WalkResults
  import Telemetry
  import Huawei

  function Root(): string { "Device." }

  function Child(): string { "Device.A." }

  /** A reviewed device, before it has reported its model. */
  function Reviewed(): Target { Huawei.V5_TARGET.(model := None) }

  function Firmware(): string { "V5R021C00S210" }

  function DeviceId(): Device { Device(Reviewed().manufacturer, Reviewed().oui, Reviewed().productClass, "1") }

  function Informed(): Inventory {
    Inventory(NotReported, ValidText(Firmware(), "Device.DeviceInfo.SoftwareVersion"), NotReported,
              "generic-device-info", "1", 0, Inform, None)
  }

  function Named(): Info { Info(Child(), false) }

  function WalkSpec(): Spec { Spec(WalkJob, Some(Root()), [], 16, 128, 4096, 1) }

  /** An operation reads the names under the root at time 20; then a discovery job, at times 5 to 10, gets the same
      answer. */
  const ACTIONS := [
    DoAccept("s1", DeviceId(), Informed(), 0, 100),
    DoCreate(Request(0, GetNames, 0, Discovery, Some(Root()), false, []), [], 0),
    DoExchange("s1", None, "r1", 0),
    DoExchange("s1", Some(NamesReply("r1", [Named()])), "", 20),
    DoAccept("s2", DeviceId(), Informed(), 5, 100),
    DoCreateJob(0, WalkSpec(), 0, 5),
    DoExchange("s2", None, "r2", 5),
    DoExchange("s2", Some(NamesReply("r2", [Named()])), "", 10)]

  // ----- The tables after each step -----

  function Row(): Cpe {
    Cpe(DeviceId().manufacturer, DeviceId().oui, DeviceId().productClass, DeviceId().serial, None, Some(Firmware()),
        None)
  }

  function Rows(): Store {
    Store(map[0 := Row()], map[(0, FirmwareField) := WriteField(None, Informed().firmware, Informed())], map[], map[])
  }

  function AskOf(plan: Plan, key: Key, at: Time): Ask {
    Ask(0, key, GetNames, Discovery, Some(Root()), false, [], plan.profileId, plan.profileVersion, plan.target.firmware,
        at)
  }

  function Names(p: Policy, plan: Plan): Verdict { JudgeNames(p, plan, [Named()]) }

  function Done(p: Policy, plan: Plan, op: Op, rpcId: string, at: Time): Op {
    AnsweredOp(op, Names(p, plan), NamesReply(rpcId, [Named()]), None, at)
  }

  function FirstOp(plan: Plan): Op { NewOp(AskOf(plan, ClientKey(0), 0)).(state := Dispatched, expiresAt := 60) }

  function WalkOp(plan: Plan): Op { NewOp(AskOf(plan, ServerKey(3), 5)).(state := Dispatched, expiresAt := 65) }

  function Tables(next: Id, sessions: map<string, Session>, ops: map<Id, Op>, attempts: map<Id, Attempt>,
                  jobs: map<Id, Job>, catalog: map<PathKey, CatalogRow>): Db {
    Db(next, sessions, ops, attempts, jobs, catalog, map[], Rows())
  }

  function Catalogued(): map<PathKey, CatalogRow> { map[(0, Child()) := CatalogRow(true, false, 20, 1)] }

  const ENDED := Session(0, Completed, 60, Some(20))

  function Log1(p: Policy, plan: Plan): map<Id, Attempt> {
    map[1 := Attempt("s1", "r1", 0, 60, Some(DigestOf(NamesReply("r1", [Named()]), Names(p, plan))))]
  }

  function Walk(state: JobState, current: Option<Id>, completed: int, finishedAt: Option<Time>): Job {
    Job(0, ClientKey(0), WalkSpec(), state, [], current, 0, 1, completed, 0, [], [], [3], 5, finishedAt)
  }

  function AfterInform(): Db {
    Tables(1, map["s1" := Session(0, AwaitingEmpty, 100, None)], map[], map[], map[], map[])
  }

  function AfterCreate(plan: Plan): Db {
    Tables(2, map["s1" := Session(0, AwaitingEmpty, 100, None)], map[1 := NewOp(AskOf(plan, ClientKey(0), 0))], map[],
           map[], map[])
  }

  function AfterDispatch(plan: Plan): Db {
    Tables(2, map["s1" := Session(0, AwaitingResponse, 60, None)], map[1 := FirstOp(plan)],
           map[1 := Attempt("s1", "r1", 0, 60, None)],
           map[], map[])
  }

  function FirstDone(p: Policy, plan: Plan): Op { Done(p, plan, FirstOp(plan), "r1", 20) }

  function AfterAnswer(p: Policy, plan: Plan): Db {
    Tables(2, map["s1" := ENDED], map[1 := FirstDone(p, plan)], Log1(p, plan), map[], Catalogued())
  }

  function AfterSecondInform(p: Policy, plan: Plan): Db {
    Tables(2, map["s1" := ENDED, "s2" := Session(0, AwaitingEmpty, 100, None)], map[1 := FirstDone(p, plan)],
           Log1(p, plan), map[], Catalogued())
  }

  function AfterCreateJob(p: Policy, plan: Plan): Db {
    Tables(4, map["s1" := ENDED, "s2" := Session(0, AwaitingEmpty, 100, None)],
           map[1 := FirstDone(p, plan), 3 := NewOp(AskOf(plan, ServerKey(3), 5))], Log1(p, plan),
               map[2 := Walk(JobRunning, Some(3), 0, None)],
           Catalogued())
  }

  function AfterSecondDispatch(p: Policy, plan: Plan): Db {
    Tables(4, map["s1" := ENDED, "s2" := Session(0, AwaitingResponse, 65, None)],
           map[1 := FirstDone(p, plan), 3 := WalkOp(plan)],
           Log1(p, plan)[3 := Attempt("s2", "r2", 5, 65, None)], map[2 := Walk(JobRunning, Some(3), 0, None)],
               Catalogued())
  }

  function AfterAll(p: Policy, plan: Plan): Db {
    Tables(4, map["s1" := ENDED, "s2" := Session(0, Completed, 65, Some(10))],
           map[1 := FirstDone(p, plan), 3 := Done(p, plan, WalkOp(plan), "r2", 10)],
           Log1(p, plan)[3 := Attempt("s2", "r2", 5, 65, Some(DigestOf(NamesReply("r2", [Named()]), Names(p, plan))))],
           map[2 := Walk(JobSucceeded, None, 1, Some(10))], Catalogued())
  }

  // ----- Paths -----

  lemma {:induction false} SplitWord(word: string, rest: string)
    requires '.' !in word
    ensures Split(word + "." + rest, '.') == [word] + Split(rest, '.')
  {
    var s := word + "." + rest;
    if word == "" {
      assert s[1..] == rest && s[0] == '.';
    } else {
      assert s[1..] == word[1..] + "." + rest && s[0] == word[0];
      SplitWord(word[1..], rest);
      assert word[0] in word && word == [word[0]] + word[1..];
      assert Split(s, '.') == [[s[0]] + Split(s[1..], '.')[0]] + Split(s[1..], '.')[1..];
    }
  }

  lemma Paths()
    ensures Concrete(Root()) && Concrete(Child()) && IsObjectName(Child()) && ReportedUnder(Root(), Child())
    ensures |Root()| <= 256
  {
    hide Split;
    SplitRoot();
    SplitChild();
    ChildTail();
  }

  lemma SplitRoot()
    ensures Split(Root(), '.') == ["Device", ""]
  {
    assert Split("", '.') == [""];
    hide Split;
    SplitWord("Device", "");
    assert Root() == "Device" + "." + "";
  }

  lemma SplitTail()
    ensures Split("A.", '.') == ["A", ""]
  {
    assert Split("", '.') == [""];
    hide Split;
    SplitWord("A", "");
    assert "A." == "A" + "." + "";
  }

  lemma SplitChild()
    ensures Split(Child(), '.') == ["Device", "A", ""]
  {
    hide Split;
    SplitTail();
    SplitWord("Device", "A.");
    assert Child() == "Device" + "." + "A.";
  }

  lemma ChildTail()
    ensures StartsWith(Child(), Root()) && Child()[|Root()|..] == "A." && StripRight("A.", Dot) == "A"
  {
    assert "A."[..1] == "A" && StripRight("A", Dot) == "A";
  }

  // ----- The steps -----

  /** What the run asks of the policy: a discovery plan for the root. */
  ghost predicate Plans(p: Policy, plan: Plan) {
    Contract(p) && p.plan(TargetOf(Row()), Discovery, Some(Root()), []) == Some(plan)
  }

  lemma NamesVerdict(p: Policy, plan: Plan)
    requires Plans(p, plan)
    ensures plan.path == Root() && plan.target == TargetOf(Row()) && plan.scope.Discovery?
    ensures Names(p, plan).reason.None? && NameItem(Named()) in Names(p, plan).items
    ensures Names(p, plan).inventory.None? && Names(p, plan).telemetry.None?
  {
    hide ReportedUnder, Concrete;
    Paths();
    ReportedObjectsKept(p, plan, [Named()], Named());
  }

  lemma SamePlan(p: Policy, plan: Plan, key: Key, at: Time)
    requires Plans(p, plan)
    ensures RowPlan(p, TargetOf(Row()), AskOf(plan, key, at)) == Some(plan)
  {
    hide Contract;
  }

  /** A session that awaits the empty request gets the one pending operation. */
  lemma ExchangeDispatches(p: Policy, db: Db, token: string, id: Id, rpcId: string, now: Time)
    requires token in db.sessions && db.sessions[token].state.AwaitingEmpty? && db.sessions[token].expiresAt > now
    requires var cpe := db.sessions[token].cpe;
             && cpe in db.store.cpes && (forall j | j in db.jobs && db.jobs[j].cpe == cpe :: Waits(db, db.jobs[j]))
             && (forall i | i in db.ops :: !Due(db.ops[i], cpe, now))
             && id in db.ops && db.ops[id].state.Pending? && db.ops[id].ask.cpe == cpe
             && (forall i | i in db.ops && db.ops[i].state.Pending? && db.ops[i].ask.cpe == cpe :: i == id)
             && RowPlan(p, TargetOf(db.store.cpes[cpe]), db.ops[id].ask).Some?
    ensures Act(p, db, DoExchange(token, None, rpcId, now)) == Dispatch(db, token, id, rpcId, now)
  {
    hide Expire, AdvanceActive, RowPlan, Waits;
    Unadvanced(p, db, db.sessions[token].cpe, now);
    NothingDue(db, db.sessions[token].cpe, now);
  }

  /** A reply to the one dispatched operation of its session is recorded. */
  lemma ExchangeRecords(p: Policy, db: Db, token: string, id: Id, plan: Plan, reply: Reply, v: Verdict, now: Time)
    requires token in db.sessions && db.sessions[token].state.AwaitingResponse?
    requires var cpe := db.sessions[token].cpe;
             && cpe in db.store.cpes && (forall j | j in db.jobs && db.jobs[j].cpe == cpe :: Waits(db, db.jobs[j]))
             && (forall i | i in db.ops :: !Due(db.ops[i], cpe, now))
             && id in db.ops && db.ops[id].state.Dispatched? && !db.ops[id].ask.capture
             && id in db.attempts && db.attempts[id].session == token && db.attempts[id].rpcId == reply.rpcId
             && (forall i | i in db.attempts && db.attempts[i].session == token :: i == id)
             && RowPlan(p, TargetOf(db.store.cpes[cpe]), db.ops[id].ask) == Some(plan)
    requires Judge(p, db.ops[id].ask, plan, reply, now, id) == Some(v)
    ensures Act(p, db, DoExchange(token, Some(reply), "", now))
         == AdvanceActive(p, Recorded(p, db, token, id, plan, reply, v, None, now), db.sessions[token].cpe, now)
  {
    hide Expire, AdvanceActive, RowPlan, Judge, Recorded, Waits;
    Unadvanced(p, db, db.sessions[token].cpe, now);
    NothingDue(db, db.sessions[token].cpe, now);
  }

  /** The first reply writes the row; the second one is overtaken. */
  lemma ChildRow()
    ensures CatalogOne(map[], 0, Named(), 1, 20) == Catalogued()
            && CatalogOne(Catalogued(), 0, Named(), 3, 10) == Catalogued()
  {}

  /** What recording a successful names reply with one name writes. */
  lemma RecordsOne(p: Policy, db: Db, token: string, id: Id, plan: Plan, reply: Reply, v: Verdict, now: Time)
    requires token in db.sessions && id in db.ops && id in db.attempts && db.sessions[token].cpe in db.store.cpes
    requires reply.NamesReply? && reply.names == [Named()] && v.reason.None? && v.inventory.None? && v.telemetry.None?
    requires forall j | j in db.jobs :: db.jobs[j].entryCount < db.jobs[j].spec.maxEntries
    ensures Recorded(p, db, token, id, plan, reply, v, None, now)
         == db.(ops := db.ops[id := AnsweredOp(db.ops[id], v, reply, None, now)],
                attempts := db.attempts[id := db.attempts[id].(digest := Some(DigestOf(reply, v)))],
                sessions := Finish(db.sessions, token, now),
                catalog := CatalogOne(db.catalog, db.sessions[token].cpe, Named(), id, now))
  {
    hide DigestOf, AnsweredOp, CatalogOne, Finish;
    var cpe := db.sessions[token].cpe;
    assert CatalogAll(db.catalog, cpe, [Named()], 0, id, now) == db.catalog;
    assert CatalogAll(db.catalog, cpe, [Named()], 1, id, now) == CatalogOne(db.catalog, cpe, Named(), id, now);
  }

  /** The first Inform stores the firmware; the second one, of the same time, changes nothing. */
  lemma InformStores()
    ensures UpdateInventory(Store(map[0 := Row().(firmware := None)], map[], map[], map[]), 0, Informed()) == Rows()
    ensures UpdateInventory(Rows(), 0, Informed()) == Rows()
  {
    hide Reviewed, Firmware;
    var store := UpdateInventory(Store(map[0 := Row().(firmware := None)], map[], map[], map[]), 0, Informed());
    assert store.fields == Rows().fields && store.cpes == Rows().cpes;
    AgainStores();
  }

  lemma AgainStores()
    ensures UpdateInventory(Rows(), 0, Informed()) == Rows()
  {
    hide Reviewed, Firmware;
    var again := UpdateInventory(Rows(), 0, Informed());
    assert again.fields == Rows().fields && again.cpes == Rows().cpes;
  }

  lemma FirstInform(p: Policy)
    ensures Act(p, EMPTY, DoAccept("s1", DeviceId(), Informed(), 0, 100)) == AfterInform()
  {
    hide UpdateInventory, Rows, Informed, Reviewed, Firmware;
    InformStores();
  }

  lemma CreateFirst(p: Policy, plan: Plan)
    requires Plans(p, plan)
    ensures Act(p, AfterInform(), DoCreate(Request(0, GetNames, 0, Discovery, Some(Root()), false, []), [], 0))
            == AfterCreate(plan)
  {
    hide Contract, Expire, Root, Child;
    NothingDue(AfterInform(), 0, 0);
  }

  lemma DispatchFirst(p: Policy, plan: Plan)
    requires Plans(p, plan)
    ensures Act(p, AfterCreate(plan), DoExchange("s1", None, "r1", 0)) == AfterDispatch(plan)
  {
    hide Plans, RowPlan, Names, Child, Root, Firmware, Reviewed;
    SamePlan(p, plan, ClientKey(0), 0);
    ExchangeDispatches(p, AfterCreate(plan), "s1", 1, "r1", 0);
  }

  lemma AnswerFirst(p: Policy, plan: Plan)
    requires Plans(p, plan)
    ensures Act(p, AfterDispatch(plan), DoExchange("s1", Some(NamesReply("r1", [Named()])), "", 20))
            == AfterAnswer(p, plan)
  {
    hide Plans, RowPlan, JudgeNames, DigestOf, Recorded, AdvanceActive, Act, CatalogOne, Child, Root, Firmware,
      Reviewed, Catalogued;
    SamePlan(p, plan, ClientKey(0), 0);
    NamesVerdict(p, plan);
    var reply := NamesReply("r1", [Named()]);
    var db := AfterDispatch(plan);
    ExchangeRecords(p, db, "s1", 1, plan, reply, Names(p, plan), 20);
    RecordsOne(p, db, "s1", 1, plan, reply, Names(p, plan), 20);
    ChildRow();
    Unadvanced(p, Recorded(p, db, "s1", 1, plan, reply, Names(p, plan), None, 20), 0, 20);
  }

  lemma FirstIsOver(p: Policy, plan: Plan)
    ensures !Active(FirstDone(p, plan)) && FirstDone(p, plan).ask.key == ClientKey(0)
  {
    hide JudgeNames;
  }

  lemma SecondInform(p: Policy, plan: Plan)
    ensures Act(p, AfterAnswer(p, plan), DoAccept("s2", DeviceId(), Informed(), 5, 100)) == AfterSecondInform(p, plan)
  {
    hide UpdateInventory, Rows, Informed, Reviewed, Firmware, Done, FirstOp, Log1, FirstDone, Catalogued;
    InformStores();
    RowsHold();
    var d := DeviceId();
    assert 0 in Rows().cpes && CpeByIdentity(Rows().cpes, d.oui, d.productClass, d.serial) == Some(0);
    assert Rows().(cpes := Rows().cpes[0 := Row().(manufacturer := d.manufacturer)]) == Rows();
  }

  lemma RowsHold()
    ensures Rows().cpes == map[0 := Row()]
  {}

  lemma LaunchesRoot(p: Policy, plan: Plan)
    requires Plans(p, plan)
    ensures var job := NewJob(0, ClientKey(0), WalkSpec(), [Step(0, Some(Root()), [])], 5);
            Launch(p, TargetOf(Row()), job, 3, 5)
              == (Walk(JobRunning, Some(3), 0, None), Some(NewOp(AskOf(plan, ServerKey(3), 5))))
  {
    hide Contract;
    var job := NewJob(0, ClientKey(0), WalkSpec(), [Step(0, Some(Root()), [])], 5);
    assert HeadNames(job) == [] && job.frontier[1..] == [] && job.opIds + [3] == [3];
  }

  /** The job that the fifth step adds, before its first launch. */
  function NewWalk(p: Policy, plan: Plan): Db {
    WithJob(AfterSecondInform(p, plan), NewJob(0, ClientKey(0), WalkSpec(), [Step(0, Some(Root()), [])], 5))
  }

  lemma WalkFrontier(p: Policy, plan: Plan, db: Db)
    requires Plans(p, plan) && 0 in db.store.cpes && db.store.cpes[0] == Row()
    ensures ValidSpec(WalkSpec()) && WalkSpec().(names := SortBy(Self, WalkSpec().names)) == WalkSpec()
    ensures FirstFrontier(p, db, 0, WalkSpec()) == Ok([Step(0, Some(Root()), [])])
  {
    hide Contract, Concrete, Root, Child, Firmware, Reviewed;
    Paths();
  }

  lemma CreateWalk(p: Policy, plan: Plan)
    requires Plans(p, plan)
    ensures Act(p, AfterSecondInform(p, plan), DoCreateJob(0, WalkSpec(), 0, 5)) == AfterCreateJob(p, plan)
  {
    hide Plans, Expire, FirstFrontier, ValidSpec, Advance, WalkSpec, Log1, FirstDone, Root, Child, Firmware, Reviewed,
      Catalogued, AfterCreateJob;
    FirstIsOver(p, plan);
    var d := AfterSecondInform(p, plan);
    NothingDue(d, 0, 5);
    RowsHold();
    WalkFrontier(p, plan, d);
    AdvanceNewWalk(p, plan);
  }

  lemma AdvanceNewWalk(p: Policy, plan: Plan)
    requires Plans(p, plan)
    ensures Advance(p, NewWalk(p, plan), 2, 5) == AfterCreateJob(p, plan)
  {
    hide Plans, Launch, WalkSpec, Log1, FirstDone, Root, Child, Firmware, Reviewed, Catalogued;
    LaunchesRoot(p, plan);
    RowsHold();
  }

  lemma DispatchWalk(p: Policy, plan: Plan)
    requires Plans(p, plan)
    ensures Act(p, AfterCreateJob(p, plan), DoExchange("s2", None, "r2", 5)) == AfterSecondDispatch(p, plan)
  {
    FirstIsOver(p, plan);
    hide Plans, RowPlan, Log1, FirstDone, Root, Child, Firmware, Reviewed, Catalogued;
    SamePlan(p, plan, ServerKey(3), 5);
    ExchangeDispatches(p, AfterCreateJob(p, plan), "s2", 3, "r2", 5);
  }

  /** The tables when the second reply is recorded and the walk not yet advanced. */
  function Recording(p: Policy, plan: Plan): Db {
    AfterAll(p, plan).(jobs := map[2 := Walk(JobRunning, Some(3), 0, None)])
  }

  lemma NoEntries()
    ensures EntriesOf(Catalogued(), 0, 3) == []
  {
    assert CitedPaths(Catalogued(), 3) == {};
  }

  /** No row cites the operation of the walk: nothing is found and the job closes. */
  lemma WalkCloses(p: Policy, plan: Plan)
    requires Plans(p, plan)
    ensures AdvanceActive(p, Recording(p, plan), 0, 10) == AfterAll(p, plan)
  {
    hide Plans, JudgeNames, DigestOf, Log1, FirstDone, EntriesOf, Root, Child, Firmware, Reviewed;
    NamesVerdict(p, plan);
    var r := Recording(p, plan);
    NoEntries();
    assert 2 in r.jobs && r.jobs[2].state.JobRunning?;
    assert ActiveJob(r.jobs, 0) == Some(2);
    assert ReadyJob(r, r.jobs[2]) == Walk(JobRunning, None, 1, None);
    assert Advance(p, r, 2, 10).jobs == AfterAll(p, plan).jobs;
  }

  lemma AnswerWalk(p: Policy, plan: Plan)
    requires Plans(p, plan)
    ensures Act(p, AfterSecondDispatch(p, plan), DoExchange("s2", Some(NamesReply("r2", [Named()])), "", 10))
            == AfterAll(p, plan)
  {
    hide Plans, RowPlan, JudgeNames, DigestOf, Recorded, AdvanceActive, Act, CatalogOne, Root, Child, Firmware,
      Reviewed, Catalogued;
    SamePlan(p, plan, ServerKey(3), 5);
    NamesVerdict(p, plan);
    var reply := NamesReply("r2", [Named()]);
    var db := AfterSecondDispatch(p, plan);
    ExchangeRecords(p, db, "s2", 3, plan, reply, Names(p, plan), 10);
    RecordsOne(p, db, "s2", 3, plan, reply, Names(p, plan), 10);
    ChildRow();
    var r := Recorded(p, db, "s2", 3, plan, reply, Names(p, plan), None, 10);
    assert r.ops == AfterAll(p, plan).ops;
    assert r.attempts == AfterAll(p, plan).attempts;
    assert r.sessions == AfterAll(p, plan).sessions;
    assert r == Recording(p, plan);
    WalkCloses(p, plan);
  }

  // ----- The run -----

  lemma RunOne(p: Policy, actions: seq<Action>, k: nat)
    requires k < |actions|
    ensures Run(p, EMPTY, actions[..k + 1]) == Act(p, Run(p, EMPTY, actions[..k]), actions[k])
  {
    hide Act;
    assert actions[..k + 1][..k] == actions[..k];
  }

  lemma RunIs(p: Policy, plan: Plan)
    requires Plans(p, plan)
    ensures Run(p, EMPTY, ACTIONS[..7]) == AfterSecondDispatch(p, plan) && Run(p, EMPTY, ACTIONS) == AfterAll(p, plan)
  {
    hide Act, Plans, AfterInform, AfterCreate, AfterDispatch, AfterAnswer, AfterSecondInform, AfterCreateJob,
      AfterSecondDispatch, AfterAll;
    assert ACTIONS[..0] == [] && ACTIONS[..8] == ACTIONS;
    RunOne(p, ACTIONS, 0);
    RunOne(p, ACTIONS, 1);
    RunOne(p, ACTIONS, 2);
    RunOne(p, ACTIONS, 3);
    RunOne(p, ACTIONS, 4);
    RunOne(p, ACTIONS, 5);
    RunOne(p, ACTIONS, 6);
    RunOne(p, ACTIONS, 7);
    hide Run;
    FirstInform(p);
    CreateFirst(p, plan);
    DispatchFirst(p, plan);
    AnswerFirst(p, plan);
    SecondInform(p, plan);
    CreateWalk(p, plan);
    DispatchWalk(p, plan);
    AnswerWalk(p, plan);
  }

  /** After the run job 2 has succeeded; the result of its only operation holds the child, which was neither dispatched
      nor counted. */
  ghost predicate MissesChild(p: Policy) {
    var db, log := Run(p, EMPTY, ACTIONS), LogOf(p, ACTIONS);
    && 2 in db.jobs && db.jobs[2].spec.kind.WalkJob? && db.jobs[2].state.JobSucceeded? && db.jobs[2].opIds == [3]
    && HasSucceeded(db.ops, 3) && NameItem(Named()) in db.ops[3].result && !IsDispatched([3], db.ops, Child())
    && db.jobs[2].entryCount == 0
    && 3 in log && NamesOf(log[3].reply) == {Child()} && log[3].overtaken == {Child()}
  }

  lemma WalkMissesChild(p: Policy, plan: Plan)
    requires Plans(p, plan)
    ensures AllPossible(ACTIONS) && MissesChild(p)
  {
    hide Plans, Run, LogOf, AfterSecondDispatch, AfterAll, IsDispatched;
    RunIs(p, plan);
    LogIs(p, plan);
    FinalTables(p, plan);
  }

  lemma FinalTables(p: Policy, plan: Plan)
    requires Plans(p, plan)
    ensures var db := AfterAll(p, plan);
            && 2 in db.jobs && db.jobs[2] == Walk(JobSucceeded, None, 1, Some(10)) && HasSucceeded(db.ops, 3)
            && NameItem(Named()) in db.ops[3].result && !IsDispatched([3], db.ops, Child())
  {
    hide Plans, FirstDone, Log1, JudgeNames, DigestOf;
    NamesVerdict(p, plan);
    assert Path(AfterAll(p, plan).ops[3]) == Root();
  }

  lemma LogIs(p: Policy, plan: Plan)
    requires Plans(p, plan)
    ensures 3 in LogOf(p, ACTIONS) && LogOf(p, ACTIONS)[3] == Receipt(NamesReply("r2", [Named()]), {Child()})
  {
    hide Run, Plans, AfterSecondDispatch, AfterAll, Logged, Root, Child, Catalogued;
    RunIs(p, plan);
    LastLogged(p, plan, LogOf(p, ACTIONS[..7]));
  }

  lemma LastLogged(p: Policy, plan: Plan, log: Log)
    requires Plans(p, plan)
    ensures var before := AfterSecondDispatch(p, plan);
            var next := Logged(log, before.ops, AfterAll(p, plan).ops, before.catalog,
                               Some(NamesReply("r2", [Named()])), 10);
            3 in next && next[3] == Receipt(NamesReply("r2", [Named()]), {Child()})
  {
    hide Plans, FirstDone, Log1, JudgeNames, DigestOf, Root, Child, Rows;
    NamesVerdict(p, plan);
    assert ReceiptFor(Catalogued(), 0, NamesReply("r2", [Named()]), 10).overtaken == {Child()};
  }

  /** So it is under the policy of the repository. */
  lemma HuaweiMissesChild(lib: Telemetry.Lib, evidence: (Reply, Plan, Kind, Time) -> Option<string>)
    ensures AllPossible(ACTIONS) && MissesChild(Huawei.HuaweiPolicy(lib, evidence))
  {
    hide Contract, MissesChild, Concrete;
    Paths();
    Huawei.HuaweiMeetsContract(lib, evidence);
    WalkMissesChild(Huawei.HuaweiPolicy(lib, evidence),
                    Huawei.MakePlan(TargetOf(Row()), Discovery, Some(Root()), []).value);
  }
}
