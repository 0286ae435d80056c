/** Approving a reviewed profile: binding an operation, judging what it read, approving, and collecting
    only while the approval is effective. */
module Validation {
  import opened Text
  import opened Domain
  import opened Policies
  import opened Jobs
  import opened Registers
  import opened Queue
  import opened Invariants

  const MANUFACTURER := "Huawei Technologies Co., Ltd"
  const PRODUCT_CLASS := "EG8145X6-10"
  const HARDWARE_NAME := DEVICE_INFO + "HardwareVersion"
  const FIRMWARE_NAME := DEVICE_INFO + "SoftwareVersion"

  predicate Matches(c: Cpe) {
    c.manufacturer == MANUFACTURER && c.productClass == PRODUCT_CLASS && c.firmware == Some(REVIEWED_FIRMWARE)
  }

  /** The last transaction of starting a validation: only another operation rebinds it. */
  function Bound(a: Option<Approval>, operation: Id, key: Id): Approval {
    if a.Some? && a.value.operation == operation then a.value
    else Approval(operation, key, REVIEWED_FIRMWARE, None, None)
  }

  function ApprovalOf(s: Store, cpe: Id): Option<Approval> {
    if cpe in s.approvals then Some(s.approvals[cpe]) else None
  }

  function Bind(db: Db, cpe: Id, operation: Id, key: Id): Outcome<()> {
    if cpe !in db.store.cpes || operation !in db.ops then Raised(StorageUnavailable)
    else
      Commit(db.(store := db.store.(approvals :=
        db.store.approvals[cpe := Bound(ApprovalOf(db.store, cpe), operation, key)])), ())
  }

  function Approve(db: Db, cpe: Id, actor: Id, seen: Id, now: Time): Outcome<()> {
    if cpe !in db.store.cpes || cpe !in db.store.approvals then Raised(AssertionError)
    else
      var a := db.store.approvals[cpe];
      if !Matches(db.store.cpes[cpe]) || a.expectedFirmware != REVIEWED_FIRMWARE || a.operation != seen
      then Raised(Conflict("revalidation_required"))
      else if a.approvedAt.Some? then Commit(db, ())
      else
        Commit(db.(store := db.store.(approvals :=
          db.store.approvals[cpe := a.(approvedBy := Some(actor), approvedAt := Some(now))])), ())
  }

  // ----- Status -----

  predicate Printable(value: string) {
    && |value| <= 256 && Strip(value) != "" && forall c | c in value :: 32 as char <= c && c != 127 as char
  }

  /** The value that the bound operation left for a name, if that name's value is still its own. */
  function ReadValue(db: Db, cpe: Id, operation: Id, name: string): Option<ValueRow> {
    if (cpe, name) in db.values && db.values[(cpe, name)].operation == operation then Some(db.values[(cpe, name)])
        else None
  }

  datatype FieldReason =
    | AwaitingCpe | IdentityMismatch | FailedWith(reason: Reason) | MissingObservation | TypeOrValue | FirmwareMismatch

  datatype FieldReport = FieldValid | FieldPending(why: FieldReason) | FieldInvalid(because: FieldReason)

  function ModelReport(c: Cpe): FieldReport {
    if c.manufacturer == MANUFACTURER && c.productClass == PRODUCT_CLASS && c.model == Some(PRODUCT_CLASS)
        then FieldValid
    else FieldInvalid(IdentityMismatch)
  }

  /** The report on a field that the bound operation read; only the firmware has an expected value. */
  function ValueReport(op: Op, row: Option<ValueRow>, expected: Option<string>): FieldReport {
    if Active(op) then FieldPending(AwaitingCpe)
    else if row.None? then
      var why := if op.reason.Some? then FailedWith(op.reason.value) else MissingObservation;
      if op.state.Failed? || op.state.Expired? then FieldInvalid(why) else FieldPending(why)
    else if row.value.xsdType != "xsd:string" || !Printable(row.value.value) then FieldInvalid(TypeOrValue)
    else if expected.Some? && Strip(row.value.value) != expected.value then FieldInvalid(FirmwareMismatch)
    else FieldValid
  }

  datatype Effective = NeedsRevalidation | Approved | Validated | Validating | NotValid

  datatype StatusView = StatusView(state: Effective, operation: Id, model: FieldReport, firmware: FieldReport,
                                   hardware: FieldReport)

  function Status(db: Db, cpe: Id): StatusView
    requires cpe in db.store.cpes && cpe in db.store.approvals && db.store.approvals[cpe].operation in db.ops
  {
    var a := db.store.approvals[cpe];
    var op := db.ops[a.operation];
    var model := ModelReport(db.store.cpes[cpe]);
    var firmware := ValueReport(op, ReadValue(db, cpe, a.operation, FIRMWARE_NAME), Some(REVIEWED_FIRMWARE));
    var hardware := ValueReport(op, ReadValue(db, cpe, a.operation, HARDWARE_NAME), None);
    var valid := op.state.Succeeded? && model.FieldValid? && firmware.FieldValid? && hardware.FieldValid?;
    var state :=
      if !Matches(db.store.cpes[cpe]) || a.expectedFirmware != REVIEWED_FIRMWARE then NeedsRevalidation
      else if a.approvedAt.Some? && valid then Approved
      else if valid then Validated
      else if Active(op) then Validating
      else NotValid;
    StatusView(state, a.operation, model, firmware, hardware)
  }

  /** The status as it is read: through the queue, so that an overdue operation is over first. */
  ghost function ReadStatus(db: Db, cpe: Id, now: Time): Outcome<StatusView> {
    if cpe !in db.store.approvals then Raised(NotFound)
    else
      match Get(db, cpe, db.store.approvals[cpe].operation, now)
      case Raised(e) => Raised(e)
      case Commit(d, _) => Commit(d, Status(d, cpe))
  }

  /** Reading the reviewed names again, right after the status has been read in a transaction of its own: only under an
      effective approval. */
  ghost function Gather(p: Policy, db: Db, cpe: Id, key: nat, now: Time): Outcome<Id> {
    match ReadStatus(db, cpe, now)
    case Raised(e) => Raised(e)
    case Commit(d, view) =>
      if !view.state.Approved? then Raised(Conflict("profile_not_approved_or_firmware_changed"))
      else Create(p, d, Request(cpe, GetValues, key, DeviceInfo, None, false, [HARDWARE_NAME, FIRMWARE_NAME]), [], now)
  }

  // ----- What approval guarantees -----

  lemma BindKeepsSafe(db: Db, cpe: Id, operation: Id, key: Id)
    requires ApprovalSafe(db.store)
    ensures var o := Bind(db, cpe, operation, key); o.Commit? ==> ApprovalSafe(o.db.store)
  {}

  lemma ApproveKeepsSafe(db: Db, cpe: Id, actor: Id, seen: Id, now: Time)
    requires ApprovalSafe(db.store)
    ensures var o := Approve(db, cpe, actor, seen, now); o.Commit? ==> ApprovalSafe(o.db.store)
  {}

  /** An effective approval rests on the reviewed firmware, stored now, and on the firmware and a clean hardware value
      that a successful read of this very CPE, the bound one, asked for and left. */
  lemma ApprovedIsGrounded(p: Policy, db: Db, cpe: Id)
    requires Inv(p, db) && cpe in db.store.cpes && cpe in db.store.approvals
             && db.store.approvals[cpe].operation in db.ops
    requires Status(db, cpe).state.Approved? || Status(db, cpe).state.Validated?
    ensures var id := db.store.approvals[cpe].operation;
            var op := db.ops[id];
            var c := db.store.cpes[cpe];
            && c.firmware == Some(REVIEWED_FIRMWARE) && c.manufacturer == "Huawei Technologies Co., Ltd"
            && c.productClass == "EG8145X6-10" && c.model == Some("EG8145X6-10")
            && op.state.Succeeded? && op.ask.cpe == cpe && op.ask.kind.GetValues?
            && FIRMWARE_NAME in AskedNames(p.defaults, op.ask) && HARDWARE_NAME in AskedNames(p.defaults, op.ask)
            && (cpe, FIRMWARE_NAME) in db.values && Strip(db.values[(cpe, FIRMWARE_NAME)].value) == REVIEWED_FIRMWARE
            && db.values[(cpe, FIRMWARE_NAME)].xsdType == "xsd:string"
            && Printable(db.values[(cpe, FIRMWARE_NAME)].value)
            && (cpe, HARDWARE_NAME) in db.values && db.values[(cpe, HARDWARE_NAME)].xsdType == "xsd:string"
            && Printable(db.values[(cpe, HARDWARE_NAME)].value)
            && (forall name | name in {FIRMWARE_NAME, HARDWARE_NAME} ::
                  db.values[(cpe, name)].operation == id && op.finishedAt == Some(db.values[(cpe, name)].observedAt))
  {
    hide JobsOk, OneActive, OneRunning, JobsDrive, OpKeys, JobKeys, Accounted, CatalogSourced, StoreOk, Coupled,
      Steady, OpsLinked, JobsLinked, CpesLinked, SessionsLinked, Printable, Strip, AskedNames;
    assert ReadValue(db, cpe, db.store.approvals[cpe].operation, FIRMWARE_NAME).Some?;
    assert ReadValue(db, cpe, db.store.approvals[cpe].operation, HARDWARE_NAME).Some?;
  }

  /** The bound operation is over and the name still holds, as clean text, what it read. */
  predicate CleanRead(db: Db, cpe: Id, operation: Id, name: string) {
    && operation in db.ops && !Active(db.ops[operation]) && (cpe, name) in db.values
    && db.values[(cpe, name)].operation == operation && db.values[(cpe, name)].xsdType == "xsd:string"
    && Printable(db.values[(cpe, name)].value)
  }

  /** A value is valid exactly when it was read cleanly and, for the firmware, is the reviewed one up to surrounding
      white space; a firmware read cleanly that differs is a mismatch, and nothing else is. */
  lemma FieldsExplained(db: Db, cpe: Id)
    requires cpe in db.store.cpes && cpe in db.store.approvals && db.store.approvals[cpe].operation in db.ops
    ensures var view, id := Status(db, cpe), db.store.approvals[cpe].operation;
            var firmware := CleanRead(db, cpe, id, FIRMWARE_NAME);
            var hardware := CleanRead(db, cpe, id, HARDWARE_NAME);
            && (view.hardware.FieldValid? <==> hardware)
            && (view.firmware.FieldValid? <==>
                  firmware && Strip(db.values[(cpe, FIRMWARE_NAME)].value) == REVIEWED_FIRMWARE)
            && (view.firmware == FieldInvalid(FirmwareMismatch) <==> firmware && !view.firmware.FieldValid?)
            && view.hardware != FieldInvalid(FirmwareMismatch)
            && (view.firmware.FieldPending? || view.hardware.FieldPending? ==>
                  Active(db.ops[id]) || db.ops[id].state.Succeeded?)
  {
    hide Printable, Strip, Matches, ModelReport;
  }

  /** The three fields explain the state: while identity, firmware and expectation stand, it is validated or approved
      exactly when all three are valid, and validating exactly while the values are awaited; an operation that failed or
      expired shows its reason in both values, because only a successful read leaves any. */
  lemma StatusExplained(p: Policy, db: Db, cpe: Id)
    requires Inv(p, db) && cpe in db.store.cpes && cpe in db.store.approvals
             && db.store.approvals[cpe].operation in db.ops
    ensures var view, op := Status(db, cpe), db.ops[db.store.approvals[cpe].operation];
            var stands := Matches(db.store.cpes[cpe]) && db.store.approvals[cpe].expectedFirmware == REVIEWED_FIRMWARE;
            var c := db.store.cpes[cpe];
            && (view.model.FieldValid? <==>
                  c.manufacturer == "Huawei Technologies Co., Ltd" && c.productClass == "EG8145X6-10"
                  && c.model == Some("EG8145X6-10"))
            && (stands <==>
                  c.manufacturer == "Huawei Technologies Co., Ltd" && c.productClass == "EG8145X6-10"
                  && c.firmware == Some(REVIEWED_FIRMWARE)
                  && db.store.approvals[cpe].expectedFirmware == REVIEWED_FIRMWARE)
            && (view.state.NeedsRevalidation? <==> !stands)
            && (view.state.Approved? <==>
                  stands && view.model.FieldValid? && view.firmware.FieldValid? && view.hardware.FieldValid?
                  && db.store.approvals[cpe].approvedAt.Some?)
            && (view.state.Validated? || view.state.Approved? <==>
                  stands && view.model.FieldValid? && view.firmware.FieldValid? && view.hardware.FieldValid?)
            && (view.state.Validating? <==> stands && view.firmware == FieldPending(AwaitingCpe))
            && (op.state.Failed? || op.state.Expired? ==>
                  view.firmware.FieldInvalid? && view.hardware == view.firmware
                  && view.firmware.because == if op.reason.Some? then FailedWith(op.reason.value)
                     else MissingObservation)
  {
    hide JobsOk, OneActive, OneRunning, JobsDrive, OpKeys, JobKeys, Accounted, CatalogSourced, StoreOk, Coupled,
      Steady, OpsLinked, JobsLinked, CpesLinked, SessionsLinked, Printable, Strip, AskedNames;
    var id := db.store.approvals[cpe].operation;
    assert ReadValue(db, cpe, id, FIRMWARE_NAME).Some? ==> db.ops[id].state.Succeeded?;
    assert ReadValue(db, cpe, id, HARDWARE_NAME).Some? ==> db.ops[id].state.Succeeded?;
  }

  /** A revoked approval refuses approval and collection and reports that it needs revalidation, whatever else holds. */
  lemma RevokedRefuses(p: Policy, db: Db, cpe: Id, actor: Id, seen: Id, key: nat, now: Time)
    requires cpe in db.store.approvals && db.store.approvals[cpe].expectedFirmware != REVIEWED_FIRMWARE
    ensures Approve(db, cpe, actor, seen, now).Raised? && Gather(p, db, cpe, key, now).Raised?
    ensures var o := ReadStatus(db, cpe, now); o.Commit? ==> o.result.state.NeedsRevalidation?
  {
    hide ExpireOps, ExpireSessions, ValueReport, ModelReport, Matches;
  }
}
