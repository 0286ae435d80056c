/** Last-observation and last-valid-value registers, and the approval that a firmware
    change revokes. One abstract register explains both the inventory rows and the
    telemetry rows. */
module Registers {
  import opened Text
  import opened Domain

  // ----- The abstract register -----

  /** One sample of one field, as it arrived. */
  datatype Sample<+O> = Sample(obs: O, at: Time, valid: bool)

  datatype Register<+O> = Blank | Held(last: Sample<O>, value: Option<Sample<O>>)

  /** A sample replaces the held one only when strictly newer; an invalid one keeps the value. */
  function Record<O>(r: Register<O>, s: Sample<O>): Register<O> {
    if r.Held? && s.at <= r.last.at then r
    else Held(s, if s.valid then Some(s) else if r.Held? then r.value else None)
  }

  function RecordAll<O(!new)>(history: seq<Sample<O>>): Register<O> {
    if history == [] then Blank
    else Record(RecordAll(history[..|history| - 1]), history[|history| - 1])
  }

  /** The sample at `i` was newer than everything that arrived before it. */
  ghost predicate Breaks<O(!new)>(history: seq<Sample<O>>, i: nat)
    requires i < |history|
  {
    forall j | 0 <= j < i :: history[j].at < history[i].at
  }

  /** First-arrived sample with the greatest time. */
  ghost predicate Newest<O(!new)>(history: seq<Sample<O>>, i: nat)
    requires i < |history|
  {
    Breaks(history, i) && forall j | 0 <= j < |history| :: history[j].at <= history[i].at
  }

  /** Last-arrived valid sample among those that broke the time record. */
  ghost predicate LastValid<O(!new)>(history: seq<Sample<O>>, k: nat)
    requires k < |history|
  {
    && history[k].valid && Breaks(history, k)
    && forall j | k < j < |history| && Breaks(history, j) :: !history[j].valid
  }

  /** What a held value is, said without folding. */
  ghost predicate ValueExplained<O(!new)>(history: seq<Sample<O>>, value: Option<Sample<O>>) {
    match value
    case Some(v) => exists k :: 0 <= k < |history| && LastValid(history, k) && v == history[k]
    case None => forall k | 0 <= k < |history| && Breaks(history, k) :: !history[k].valid
  }

  /** What the register holds after any history, said without folding. */
  ghost predicate Explains<O(!new)>(history: seq<Sample<O>>, r: Register<O>) {
    match r
    case Blank => history == []
    case Held(last, value) =>
      && (exists i :: 0 <= i < |history| && Newest(history, i) && last == history[i])
      && ValueExplained(history, value)
  }

  lemma NewestGrows<O(!new)>(history: seq<Sample<O>>, i: nat)
    requires i < |history| - 1 && Newest(history[..|history| - 1], i)
    ensures history[|history| - 1].at <= history[i].at ==> Newest(history, i)
    ensures history[|history| - 1].at > history[i].at ==> Newest(history, |history| - 1)
    ensures Breaks(history, |history| - 1) <==> history[|history| - 1].at > history[i].at
  {}

  /** The held value is explained by `history` when it was explained without the last sample and
      that sample brings no new value. */
  lemma ValueKept<O(!new)>(history: seq<Sample<O>>, value: Option<Sample<O>>)
    requires history != [] && ValueExplained(history[..|history| - 1], value)
    requires Breaks(history, |history| - 1) ==> !history[|history| - 1].valid
    ensures ValueExplained(history, value)
  {}

  lemma {:induction false} RegisterExplained<O(!new)>(history: seq<Sample<O>>)
    ensures Explains(history, RecordAll(history))
  {
    if history != [] {
      var n := |history| - 1;
      RegisterExplained(history[..n]);
      RecordExplained(history, RecordAll(history[..n]));
    }
  }

  lemma RecordExplained<O(!new)>(history: seq<Sample<O>>, r: Register<O>)
    requires history != [] && Explains(history[..|history| - 1], r)
    ensures Explains(history, Record(r, history[|history| - 1]))
  {
    var n := |history| - 1;
    var before, s := history[..n], history[n];
    if r.Blank? {
      assert n == 0 && Newest(history, 0);
      assert s.valid ==> LastValid(history, 0);
    } else {
      var i :| 0 <= i < n && Newest(before, i) && r.last == before[i];
      NewestGrows(history, i);
      if s.at > r.last.at && s.valid {
        assert LastValid(history, n);
      } else {
        ValueKept(history, r.value);
      }
    }
  }

  /** When no sample arrives with an earlier time than the one before, the register holds the first of the newest
      samples (at `i`) and the last valid sample that was newer than the one before it (at `k`). */
  lemma InOrderNewestValid<O(!new)>(history: seq<Sample<O>>, i: nat, k: nat)
    requires forall a, b | 0 <= a < b < |history| :: history[a].at <= history[b].at
    requires i < |history| && Rises(history, i) && history[i].at == history[|history| - 1].at
    requires k < |history| && Rises(history, k) && history[k].valid
    requires forall j | k < j < |history| && Rises(history, j) :: !history[j].valid
    ensures RecordAll(history) == Held(history[i], Some(history[k]))
  {
    hide RecordAll, Newest, LastValid, Breaks, Rises;
    RegisterExplained(history);
    forall j | 0 <= j < |history| ensures Rises(history, j) <==> Breaks(history, j) { SortedBreaks(history, j); }
    var r := RecordAll(history);
    var n :| 0 <= n < |history| && Newest(history, n) && r.last == history[n];
    SortedNewest(history, i, n);
    assert r.value.Some?;
    var m :| 0 <= m < |history| && LastValid(history, m) && r.value.value == history[m];
    OnlyLastValid(history, k, m);
  }

  /** The sample at `i` was newer than the one that arrived before it. */
  predicate Rises<O>(history: seq<Sample<O>>, i: nat)
    requires i < |history|
  {
    i == 0 || history[i - 1].at < history[i].at
  }

  lemma SortedBreaks<O(!new)>(history: seq<Sample<O>>, k: nat)
    requires k < |history| && forall a, b | 0 <= a < b < |history| :: history[a].at <= history[b].at
    ensures Rises(history, k) <==> Breaks(history, k)
  {
    if k > 0 { assert forall j | 0 <= j < k - 1 :: history[j].at <= history[k - 1].at; }
  }

  lemma SortedNewest<O(!new)>(history: seq<Sample<O>>, i: nat, n: nat)
    requires i < |history| && Breaks(history, i) && history[i].at == history[|history| - 1].at
    requires n < |history| && Newest(history, n) && forall a,
             b | 0 <= a < b < |history| :: history[a].at <= history[b].at
    ensures n == i
  {
    assert history[|history| - 1].at <= history[n].at;
  }

  lemma OnlyLastValid<O(!new)>(history: seq<Sample<O>>, k: nat, m: nat)
    requires k < |history| && history[k].valid && Breaks(history, k) && m < |history| && LastValid(history, m)
    requires forall j | k < j < |history| && Breaks(history, j) :: !history[j].valid
    ensures m == k
  {
    hide Breaks;
  }

  // ----- Inventory rows -----

  datatype Field = ModelField | FirmwareField | HardwareField

  const FIELDS: seq<Field> := [ModelField, FirmwareField, HardwareField]

  function Observed(inv: Inventory, f: Field): TextObservation {
    match f
    case ModelField => inv.model
    case FirmwareField => inv.firmware
    case HardwareField => inv.hardware
  }

  datatype FieldRow = FieldRow(
    valid: bool, source: Option<string>, profileId: string, profileVersion: string, observedAt: Time,
    invalidReason: Option<InvalidReason>, via: Method, operation: Option<Id>,
    valueSource: Option<string>, valueProfileId: Option<string>, valueProfileVersion: Option<string>,
    valueReceivedAt: Option<Time>, valueMethod: Option<Method>, valueOperation: Option<Id>)

  /** The table's CHECK constraints on one row. */
  predicate FieldRowChecks(r: FieldRow) {
    && ((r.valid && r.invalidReason.None? && r.source.Some?) || (!r.valid && r.invalidReason.Some?))
    && ((r.valueReceivedAt.None? && r.valueSource.None? && r.valueProfileId.None? && r.valueProfileVersion.None?)
        || (r.valueReceivedAt.Some? && r.valueSource.Some? && r.valueProfileId.Some? && r.valueProfileVersion.Some?
            && r.valueReceivedAt.value <= r.observedAt))
    && (r.valid ==>
          && r.valueReceivedAt == Some(r.observedAt) && r.valueSource == r.source
          && r.valueProfileId == Some(r.profileId) && r.valueProfileVersion == Some(r.profileVersion))
    && (r.via.Inform? <==> r.operation.None?)
    && ((r.valueReceivedAt.None? && r.valueMethod.None? && r.valueOperation.None?)
        || (r.valueReceivedAt.Some? && r.valueMethod.Some?
            && (r.valueMethod.value.Inform? <==> r.valueOperation.None?)))
  }

  /** An inventory read by Inform names no operation; one read by GetParameterValues names its own. */
  predicate OriginOk(inv: Inventory) {
    inv.via.Inform? <==> inv.operation.None?
  }

  predicate Applies(rows: map<(Id, Field), FieldRow>, cpe: Id, f: Field, inv: Inventory) {
    && !Observed(inv, f).NotReported?
    && ((cpe, f) in rows ==> rows[(cpe, f)].observedAt < inv.receivedAt)
  }

  function SourceOf(obs: TextObservation): Option<string> {
    match obs
    case NotReported => None
    case InvalidText(source, _) => source
    case ValidText(_, source) => Some(source)
  }

  /** The row after an observation that applies, given the row before. */
  function WriteField(was: Option<FieldRow>, obs: TextObservation, inv: Inventory): FieldRow
    requires !obs.NotReported?
  {
    var row := FieldRow(
      obs.ValidText?, SourceOf(obs), inv.profileId, inv.profileVersion, inv.receivedAt,
      if obs.InvalidText? then Some(obs.reason) else None, inv.via, inv.operation,
      None, None, None, None, None, None);
    if obs.ValidText? then
      row.(valueSource := SourceOf(obs), valueProfileId := Some(inv.profileId),
           valueProfileVersion := Some(inv.profileVersion), valueReceivedAt := Some(inv.receivedAt),
           valueMethod := Some(inv.via), valueOperation := inv.operation)
    else if was.Some? then
      row.(valueSource := was.value.valueSource, valueProfileId := was.value.valueProfileId,
           valueProfileVersion := was.value.valueProfileVersion, valueReceivedAt := was.value.valueReceivedAt,
           valueMethod := was.value.valueMethod, valueOperation := was.value.valueOperation)
    else row
  }

  function RowAt(rows: map<(Id, Field), FieldRow>, cpe: Id, f: Field): Option<FieldRow> {
    if (cpe, f) in rows then Some(rows[(cpe, f)]) else None
  }

  function WrittenFields(rows: map<(Id, Field), FieldRow>, cpe: Id, inv: Inventory): map<(Id, Field), FieldRow> {
    rows + map f: Field | f in {ModelField, FirmwareField, HardwareField} && Applies(rows, cpe, f, inv)
                :: (cpe, f) := WriteField(RowAt(rows, cpe, f), Observed(inv, f), inv)
  }

  datatype Cpe = Cpe(manufacturer: string, oui: string, productClass: string, serial: string,
                     model: Option<string>, firmware: Option<string>, hardware: Option<string>)

  function Column(c: Cpe, f: Field): Option<string> {
    match f
    case ModelField => c.model
    case FirmwareField => c.firmware
    case HardwareField => c.hardware
  }

  /** The valid value that an inventory carries into a column, if it carries one. */
  function NewValue(rows: map<(Id, Field), FieldRow>, cpe: Id, f: Field, inv: Inventory): Option<string> {
    if Applies(rows, cpe, f, inv) && Observed(inv, f).ValidText? then Some(Observed(inv, f).value) else None
  }

  function Or(a: Option<string>, b: Option<string>): Option<string> { if a.Some? then a else b }

  function WrittenCpe(c: Cpe, rows: map<(Id, Field), FieldRow>, cpe: Id, inv: Inventory): Cpe {
    c.(model := Or(NewValue(rows, cpe, ModelField, inv), c.model),
       firmware := Or(NewValue(rows, cpe, FirmwareField, inv), c.firmware),
       hardware := Or(NewValue(rows, cpe, HardwareField, inv), c.hardware))
  }

  // ----- Approvals -----

  const REVIEWED_FIRMWARE := "V5R022C00S364"

  const REVALIDATION_REQUIRED := "REVALIDATION_REQUIRED"

  datatype Approval = Approval(operation: Id, key: Id, expectedFirmware: string,
                               approvedBy: Option<Id>, approvedAt: Option<Time>)

  function Revoked(a: Approval, firmware: Option<string>): Approval {
    if firmware.Some? && firmware.value != a.expectedFirmware then
      a.(expectedFirmware := REVALIDATION_REQUIRED, approvedAt := None, approvedBy := None)
    else a
  }

  datatype Store = Store(cpes: map<Id, Cpe>, fields: map<(Id, Field), FieldRow>,
                         telemetry: map<(Id, string, TelemetryName), TelemetryRow>,
                         approvals: map<Id, Approval>)

  /** One inventory arriving for one CPE. */
  function UpdateInventory(s: Store, cpe: Id, inv: Inventory): Store
    requires cpe in s.cpes
  {
    s.(fields := WrittenFields(s.fields, cpe, inv),
       cpes := s.cpes[cpe := WrittenCpe(s.cpes[cpe], s.fields, cpe, inv)],
       approvals :=
         if cpe in s.approvals then
           s.approvals[cpe := Revoked(s.approvals[cpe], NewValue(s.fields, cpe, FirmwareField, inv))]
         else s.approvals)
  }

  /** An approval stands only while the reviewed firmware is both expected and stored. */
  ghost predicate ApprovalSafe(s: Store) {
    forall c | c in s.approvals && s.approvals[c].approvedAt.Some? ::
      && s.approvals[c].expectedFirmware == REVIEWED_FIRMWARE
      && c in s.cpes && s.cpes[c].firmware == Some(REVIEWED_FIRMWARE)
  }

  lemma UpdateKeepsApprovalSafe(s: Store, cpe: Id, inv: Inventory)
    requires cpe in s.cpes && ApprovalSafe(s)
    ensures ApprovalSafe(UpdateInventory(s, cpe, inv))
  {}

  /** What an inventory brings into a column: a valid value that is newer than the row of its field. */
  function Brought(s: Store, cpe: Id, f: Field, o: TextObservation, at: Time, was: Option<string>): Option<string> {
    if o.ValidText? && ((cpe, f) in s.fields ==> s.fields[(cpe, f)].observedAt < at) then Some(o.value) else was
  }

  /** An inventory writes model, firmware and hardware each from its own observation and nothing else of the CPE; a
      newer valid firmware that differs from the expected one revokes the approval and forgets who approved it; no other
      CPE or approval changes. */
  lemma InventoryExactly(s: Store, cpe: Id, inv: Inventory)
    requires cpe in s.cpes
    ensures var later, c := UpdateInventory(s, cpe, inv), s.cpes[cpe];
            && later.cpes == s.cpes[cpe := c.(
                 model := Brought(s, cpe, ModelField, inv.model, inv.receivedAt, c.model),
                 firmware := Brought(s, cpe, FirmwareField, inv.firmware, inv.receivedAt, c.firmware),
                 hardware := Brought(s, cpe, HardwareField, inv.hardware, inv.receivedAt, c.hardware))]
            && later.telemetry == s.telemetry && later.approvals.Keys == s.approvals.Keys
            && (forall a | a in s.approvals && a != cpe :: later.approvals[a] == s.approvals[a])
            && (cpe in s.approvals ==>
                  var a, firmware := s.approvals[cpe], Brought(s, cpe, FirmwareField, inv.firmware, inv.receivedAt,
                                                               None);
                  if firmware.Some? && firmware.value != a.expectedFirmware then
                    && later.approvals[cpe].expectedFirmware == "REVALIDATION_REQUIRED"
                    && later.approvals[cpe].approvedAt.None? && later.approvals[cpe].approvedBy.None?
                    && later.approvals[cpe].operation == a.operation && later.approvals[cpe].key == a.key
                  else later.approvals[cpe] == a)
  {
    hide WrittenFields;
  }

  // ----- Inventory rows refine the abstract register -----

  datatype FieldSample = FieldSample(obs: TextObservation, profileId: string, profileVersion: string,
                                     via: Method, operation: Option<Id>)

  function SampleOf(inv: Inventory, f: Field): Sample<FieldSample> {
    Sample(FieldSample(Observed(inv, f), inv.profileId, inv.profileVersion, inv.via, inv.operation),
           inv.receivedAt, Observed(inv, f).ValidText?)
  }

  /** The samples of one field in a history of inventories. */
  function Samples(history: seq<Inventory>, f: Field): seq<Sample<FieldSample>> {
    if history == [] then []
    else
      var inv := history[|history| - 1];
      Samples(history[..|history| - 1], f) + if Observed(inv, f).NotReported? then [] else [SampleOf(inv, f)]
  }

  function UpdateAll(s: Store, cpe: Id, history: seq<Inventory>): (r: Store)
    requires cpe in s.cpes
    ensures cpe in r.cpes
  {
    if history == [] then s
    else UpdateInventory(UpdateAll(s, cpe, history[..|history| - 1]), cpe, history[|history| - 1])
  }

  /** Row and column together hold exactly what the abstract register holds. */
  ghost predicate Holds(row: Option<FieldRow>, column: Option<string>, r: Register<FieldSample>) {
    match r
    case Blank => row.None? && column.None?
    case Held(last, value) =>
      && row.Some?
      && var w := row.value;
      && w.observedAt == last.at && w.valid == last.valid && w.source == SourceOf(last.obs.obs)
      && w.invalidReason == (if last.obs.obs.InvalidText? then Some(last.obs.obs.reason) else None)
      && w.profileId == last.obs.profileId && w.profileVersion == last.obs.profileVersion
      && w.via == last.obs.via && w.operation == last.obs.operation
      && match value
         case None =>
           && column.None? && w.valueReceivedAt.None? && w.valueSource.None? && w.valueProfileId.None?
           && w.valueProfileVersion.None? && w.valueMethod.None? && w.valueOperation.None?
         case Some(v) =>
           && v.obs.obs.ValidText? && column == Some(v.obs.obs.value)
           && w.valueReceivedAt == Some(v.at) && w.valueSource == Some(v.obs.obs.valueSource)
           && w.valueProfileId == Some(v.obs.profileId) && w.valueProfileVersion == Some(v.obs.profileVersion)
           && w.valueMethod == Some(v.obs.via) && w.valueOperation == v.obs.operation
  }

  lemma RowAfter(rows: map<(Id, Field), FieldRow>, cpe: Id, inv: Inventory, f: Field)
    ensures RowAt(WrittenFields(rows, cpe, inv), cpe, f)
         == if Applies(rows, cpe, f, inv) then Some(WriteField(RowAt(rows, cpe, f), Observed(inv, f), inv))
             else RowAt(rows, cpe, f)
  {
    hide WriteField;
    assert f in {ModelField, FirmwareField, HardwareField};
  }

  lemma ColumnAfterUpdate(s: Store, cpe: Id, inv: Inventory, f: Field)
    requires cpe in s.cpes
    ensures UpdateInventory(s, cpe, inv).fields == WrittenFields(s.fields, cpe, inv)
    ensures Column(UpdateInventory(s, cpe, inv).cpes[cpe], f)
            == Or(NewValue(s.fields, cpe, f, inv), Column(s.cpes[cpe], f))
  {
    hide WrittenFields;
  }

  /** The row is there exactly when something is held, observed when the last sample was. */
  lemma RowHolds(row: Option<FieldRow>, column: Option<string>, r: Register<FieldSample>)
    requires Holds(row, column, r)
    ensures row.Some? <==> r.Held?
    ensures row.Some? ==> row.value.observedAt == r.last.at
  {}

  lemma UpdateRefinesRecord(s: Store, cpe: Id, inv: Inventory, f: Field, r: Register<FieldSample>)
    requires cpe in s.cpes
    requires Holds(RowAt(s.fields, cpe, f), Column(s.cpes[cpe], f), r)
    ensures var s' := UpdateInventory(s, cpe, inv);
            Holds(RowAt(s'.fields, cpe, f), Column(s'.cpes[cpe], f),
                  if Observed(inv, f).NotReported? then r else Record(r, SampleOf(inv, f)))
  {
    hide WriteField, UpdateInventory, Holds;
    RowAfter(s.fields, cpe, inv, f);
    ColumnAfterUpdate(s, cpe, inv, f);
    RowHolds(RowAt(s.fields, cpe, f), Column(s.cpes[cpe], f), r);
    if Applies(s.fields, cpe, f, inv) {
      WriteRefinesRecord(RowAt(s.fields, cpe, f), Column(s.cpes[cpe], f), inv, f, r);
    }
  }

  lemma WriteRefinesRecord(row: Option<FieldRow>, column: Option<string>, inv: Inventory, f: Field,
                           r: Register<FieldSample>)
    requires Holds(row, column, r) && !Observed(inv, f).NotReported?
    requires row.Some? ==> row.value.observedAt < inv.receivedAt
    ensures var obs := Observed(inv, f);
            Holds(Some(WriteField(row, obs, inv)), if obs.ValidText? then Some(obs.value) else column,
                  Record(r, SampleOf(inv, f)))
  {}

  lemma NothingHeld()
    ensures Holds(None, None, RecordAll([]))
  {}

  /** After any sequence of inventories the row holds the first-arrived newest observation, and the
      column with its provenance the last valid one among those that broke the time record. */
  lemma {:induction false} InventoryRefinesHistory(s: Store, cpe: Id, history: seq<Inventory>, f: Field)
    requires cpe in s.cpes && RowAt(s.fields, cpe, f).None? && Column(s.cpes[cpe], f).None?
    ensures var s' := UpdateAll(s, cpe, history);
            && Explains(Samples(history, f), RecordAll(Samples(history, f)))
            && Holds(RowAt(s'.fields, cpe, f), Column(s'.cpes[cpe], f), RecordAll(Samples(history, f)))
  {
    hide Holds, UpdateInventory, Record, Explains;
    RegisterExplained(Samples(history, f));
    if history == [] {
      NothingHeld();
    } else {
      var n := |history| - 1;
      InventoryRefinesHistory(s, cpe, history[..n], f);
      var before := Samples(history[..n], f);
      UpdateRefinesRecord(UpdateAll(s, cpe, history[..n]), cpe, history[n], f, RecordAll(before));
      var one := SampleOf(history[n], f);
      assert (before + [one])[..|before|] == before;
      assert before + [] == before;
    }
  }

  /** Every row satisfies the table's CHECK constraints. */
  ghost predicate FieldsChecked(rows: map<(Id, Field), FieldRow>) {
    forall k | k in rows :: FieldRowChecks(rows[k])
  }

  lemma WrittenRowChecks(was: Option<FieldRow>, obs: TextObservation, inv: Inventory)
    requires !obs.NotReported? && OriginOk(inv)
    requires was.Some? ==> FieldRowChecks(was.value) && was.value.observedAt < inv.receivedAt
    ensures FieldRowChecks(WriteField(was, obs, inv))
  {}

  lemma UpdateKeepsFieldsChecked(s: Store, cpe: Id, inv: Inventory)
    requires cpe in s.cpes && FieldsChecked(s.fields) && OriginOk(inv)
    ensures FieldsChecked(UpdateInventory(s, cpe, inv).fields)
  {
    hide FieldRowChecks, WriteField, WrittenCpe, OriginOk;
    var rows := UpdateInventory(s, cpe, inv).fields;
    forall k | k in rows ensures FieldRowChecks(rows[k]) {
      if k.0 == cpe && Applies(s.fields, cpe, k.1, inv) {
        var was := RowAt(s.fields, cpe, k.1);
        assert was.Some? ==> FieldRowChecks(was.value);
        assert rows[k] == WriteField(was, Observed(inv, k.1), inv);
        WrittenRowChecks(was, Observed(inv, k.1), inv);
      } else {
        assert rows[k] == s.fields[k];
      }
    }
  }

  // ----- Telemetry rows -----

  datatype TelemetryRow = TelemetryRow(
    kind: TelemetryKind, state: TelemetryState, reason: Option<TelemetryReason>, sources: seq<string>, source: string,
    observedAt: Time, operation: Id, profileId: string, profileVersion: string,
    value: Option<TelemetryValue>, dBm: bool, valueSources: Option<seq<string>>, valueSource: Option<string>,
    valueReceivedAt: Option<Time>, valueOperation: Option<Id>,
    valueProfileId: Option<string>, valueProfileVersion: Option<string>)

  predicate KindHas(kind: TelemetryKind, name: TelemetryName) {
    kind.OpticalKind? <==> name.RxPower? || name.TxPower?
  }

  /** The table's CHECK constraints on one row. */
  predicate TelemetryRowChecks(name: TelemetryName, r: TelemetryRow) {
    && ((r.state.Valid? && r.reason.None? && r.value.Some?) || (!r.state.Valid? && r.reason.Some?))
    && ((&& r.value.None? && !r.dBm && r.valueSource.None? && r.valueSources.None? && r.valueReceivedAt.None?
         && r.valueOperation.None? && r.valueProfileId.None? && r.valueProfileVersion.None?)
        || (&& r.value.Some? && r.valueSource.Some? && r.valueSources.Some? && r.valueReceivedAt.Some?
            && r.valueOperation.Some? && r.valueProfileId.Some? && r.valueProfileVersion.Some?))
    && 1 <= |r.sources| <= 16
    && (r.valueSources.Some? ==> 1 <= |r.valueSources.value| <= 16)
    && KindHas(r.kind, name)
  }

  /** What `collect` promises of each observation it hands over. */
  predicate ObservationOk(kind: TelemetryKind, o: TelemetryObservation) {
    && (o.state.Valid? <==> o.value.Some?)
    && (o.state.Valid? <==> o.reason.None?)
    && |o.sources| <= 16
    && KindHas(kind, o.name)
  }

  ghost predicate CollectionOk(c: Collection) {
    && (forall o | o in c.fields :: ObservationOk(c.kind, o))
    && (forall i, j | 0 <= i < j < |c.fields| :: c.fields[i].name != c.fields[j].name)
  }

  type TelemetryKey = (Id, string, TelemetryName)

  function WriteTelemetry(was: Option<TelemetryRow>, c: Collection, o: TelemetryObservation): TelemetryRow {
    var sources := if o.sources != [] then o.sources else [o.source];
    var row := TelemetryRow(
      if was.Some? then was.value.kind else c.kind, o.state, o.reason, sources, o.source,
      c.receivedAt, c.operation, c.profileId, c.profileVersion,
      None, false, None, None, None, None, None, None);
    if o.state.Valid? then
      row.(value := o.value, dBm := o.dBm, valueSources := Some(sources), valueSource := Some(o.source),
           valueReceivedAt := Some(c.receivedAt), valueOperation := Some(c.operation),
           valueProfileId := Some(c.profileId), valueProfileVersion := Some(c.profileVersion))
    else if was.Some? then
      row.(value := was.value.value, dBm := was.value.dBm, valueSources := was.value.valueSources,
           valueSource := was.value.valueSource, valueReceivedAt := was.value.valueReceivedAt,
           valueOperation := was.value.valueOperation, valueProfileId := was.value.valueProfileId,
           valueProfileVersion := was.value.valueProfileVersion)
    else row
  }

  function RecordObservation(rows: map<TelemetryKey, TelemetryRow>, cpe: Id, c: Collection, o: TelemetryObservation)
    : map<TelemetryKey, TelemetryRow>
  {
    var k := (cpe, c.path, o.name);
    if k in rows && c.receivedAt <= rows[k].observedAt then rows
    else rows[k := WriteTelemetry(if k in rows then Some(rows[k]) else None, c, o)]
  }

  /** The first `n` observations of a collection, recorded in order. */
  function RecordObservations(rows: map<TelemetryKey, TelemetryRow>, cpe: Id, c: Collection, n: nat)
    : map<TelemetryKey, TelemetryRow>
    requires n <= |c.fields|
  {
    if n == 0 then rows
    else RecordObservation(RecordObservations(rows, cpe, c, n - 1), cpe, c, c.fields[n - 1])
  }

  function UpdateTelemetry(s: Store, cpe: Id, c: Collection): Store {
    s.(telemetry := RecordObservations(s.telemetry, cpe, c, |c.fields|))
  }

  ghost predicate TelemetryChecked(rows: map<TelemetryKey, TelemetryRow>) {
    forall k | k in rows :: TelemetryRowChecks(k.2, rows[k])
  }

  lemma WrittenChecks(was: Option<TelemetryRow>, c: Collection, o: TelemetryObservation)
    requires ObservationOk(c.kind, o) && (was.Some? ==> TelemetryRowChecks(o.name, was.value))
    ensures TelemetryRowChecks(o.name, WriteTelemetry(was, c, o))
  {}

  lemma ObservationKeepsChecks(rows: map<TelemetryKey, TelemetryRow>, cpe: Id, c: Collection, o: TelemetryObservation)
    requires ObservationOk(c.kind, o) && TelemetryChecked(rows)
    ensures TelemetryChecked(RecordObservation(rows, cpe, c, o))
  {
    hide TelemetryRowChecks, WriteTelemetry, ObservationOk;
    var k := (cpe, c.path, o.name);
    WrittenChecks(if k in rows then Some(rows[k]) else None, c, o);
  }

  lemma FieldOk(c: Collection, i: nat)
    requires CollectionOk(c) && i < |c.fields|
    ensures ObservationOk(c.kind, c.fields[i])
  {}

  lemma {:induction false} ObservationsKeepChecks(rows: map<TelemetryKey, TelemetryRow>, cpe: Id, c: Collection, n: nat)
    requires n <= |c.fields| && CollectionOk(c) && TelemetryChecked(rows)
    ensures TelemetryChecked(RecordObservations(rows, cpe, c, n))
  {
    hide TelemetryChecked, RecordObservation, ObservationOk, CollectionOk;
    if n > 0 {
      ObservationsKeepChecks(rows, cpe, c, n - 1);
      FieldOk(c, n - 1);
      ObservationKeepsChecks(RecordObservations(rows, cpe, c, n - 1), cpe, c, c.fields[n - 1]);
    }
  }

  ghost function TelemetryAt(rows: map<TelemetryKey, TelemetryRow>, k: TelemetryKey): Option<TelemetryRow> {
    if k in rows then Some(rows[k]) else None
  }

  /** The telemetry sample that a collection carries for one key, if it carries one. */
  datatype TelemetrySample = TelemetrySample(obs: TelemetryObservation, kind: TelemetryKind, operation: Id,
                                             profileId: string, profileVersion: string)

  function TelemetrySampleOf(c: Collection, o: TelemetryObservation): Sample<TelemetrySample> {
    Sample(TelemetrySample(o, c.kind, c.operation, c.profileId, c.profileVersion), c.receivedAt, o.state.Valid?)
  }

  function SourcesOf(o: TelemetryObservation): seq<string> {
    if o.sources != [] then o.sources else [o.source]
  }

  ghost predicate TelemetryHolds(row: Option<TelemetryRow>, r: Register<TelemetrySample>) {
    match r
    case Blank => row.None?
    case Held(last, value) =>
      && row.Some?
      && var w := row.value;
      && w.observedAt == last.at && w.state == last.obs.obs.state && w.reason == last.obs.obs.reason
      && w.source == last.obs.obs.source && w.sources == SourcesOf(last.obs.obs)
      && w.operation == last.obs.operation && w.profileId == last.obs.profileId
      && w.profileVersion == last.obs.profileVersion
      && match value
         case None =>
           && w.value.None? && !w.dBm && w.valueSource.None? && w.valueSources.None? && w.valueReceivedAt.None?
           && w.valueOperation.None? && w.valueProfileId.None? && w.valueProfileVersion.None?
         case Some(v) =>
           && w.value == v.obs.obs.value && w.dBm == v.obs.obs.dBm && w.valueReceivedAt == Some(v.at)
           && w.valueSource == Some(v.obs.obs.source) && w.valueSources == Some(SourcesOf(v.obs.obs))
           && w.valueOperation == Some(v.obs.operation) && w.valueProfileId == Some(v.obs.profileId)
           && w.valueProfileVersion == Some(v.obs.profileVersion)
  }

  /** The samples of one telemetry key in a history of collections of one CPE. */
  function TelemetrySamples(history: seq<Collection>, path: string, name: TelemetryName): seq<Sample<TelemetrySample>> {
    if history == [] then []
    else
      var c := history[|history| - 1];
      TelemetrySamples(history[..|history| - 1], path, name)
      + if c.path != path then [] else Carried(c, name, |c.fields|)
  }

  function Carried(c: Collection, name: TelemetryName, n: nat): seq<Sample<TelemetrySample>>
    requires n <= |c.fields|
  {
    if n == 0 then []
    else if c.fields[n - 1].name == name then Carried(c, name, n - 1) + [TelemetrySampleOf(c, c.fields[n - 1])]
    else Carried(c, name, n - 1)
  }

  function CollectAll(s: Store, cpe: Id, history: seq<Collection>): Store {
    if history == [] then s
    else UpdateTelemetry(CollectAll(s, cpe, history[..|history| - 1]), cpe, history[|history| - 1])
  }

  lemma RecordAllAppend<O(!new)>(history: seq<Sample<O>>, s: Sample<O>)
    ensures RecordAll(history + [s]) == Record(RecordAll(history), s)
  {}

  lemma {:induction false} ObservationsRefine(rows: map<TelemetryKey, TelemetryRow>, cpe: Id, c: Collection, n: nat,
                                              name: TelemetryName, before: seq<Sample<TelemetrySample>>)
    requires n <= |c.fields|
    requires TelemetryHolds(TelemetryAt(rows, (cpe, c.path, name)), RecordAll(before))
    ensures TelemetryHolds(TelemetryAt(RecordObservations(rows, cpe, c, n), (cpe, c.path, name)),
                           RecordAll(before + Carried(c, name, n)))
  {
    hide TelemetryHolds, TelemetryAt, RecordObservation, RecordAll, Record, TelemetrySampleOf;
    if n == 0 {
      assert before + [] == before;
    } else {
      ObservationsRefine(rows, cpe, c, n - 1, name, before);
      var s, carried := TelemetrySampleOf(c, c.fields[n - 1]), before + Carried(c, name, n - 1);
      RecordAllAppend(carried, s);
      assert before + (Carried(c, name, n - 1) + [s]) == carried + [s];
      ObservationRefines(RecordObservations(rows, cpe, c, n - 1), cpe, c, c.fields[n - 1], name, RecordAll(carried));
    }
  }

  lemma ObservationRefines(rows: map<TelemetryKey, TelemetryRow>, cpe: Id, c: Collection, o: TelemetryObservation,
                           name: TelemetryName, r: Register<TelemetrySample>)
    requires TelemetryHolds(TelemetryAt(rows, (cpe, c.path, name)), r)
    ensures TelemetryHolds(TelemetryAt(RecordObservation(rows, cpe, c, o), (cpe, c.path, name)),
                           if o.name == name then Record(r, TelemetrySampleOf(c, o)) else r)
  {}

  lemma {:induction false} OtherPathUntouched(rows: map<TelemetryKey, TelemetryRow>, cpe: Id, c: Collection, n: nat,
                                              k: TelemetryKey)
    requires n <= |c.fields| && k.1 != c.path
    ensures TelemetryAt(RecordObservations(rows, cpe, c, n), k) == TelemetryAt(rows, k)
  {
    if n > 0 { OtherPathUntouched(rows, cpe, c, n - 1, k); }
  }

  /** After any sequence of collections a telemetry row holds the first-arrived newest observation and
      the last valid value among those that broke the time record. */
  lemma {:induction false} TelemetryRefinesHistory(s: Store, cpe: Id, history: seq<Collection>, path: string,
                                                   name: TelemetryName)
    requires (cpe, path, name) !in s.telemetry
    ensures var samples := TelemetrySamples(history, path, name);
            && Explains(samples, RecordAll(samples))
            && TelemetryHolds(TelemetryAt(CollectAll(s, cpe, history).telemetry, (cpe, path, name)), RecordAll(samples))
  {
    RegisterExplained(TelemetrySamples(history, path, name));
    if history != [] {
      var n := |history| - 1;
      TelemetryRefinesHistory(s, cpe, history[..n], path, name);
      var rows, c := CollectAll(s, cpe, history[..n]).telemetry, history[n];
      var before := TelemetrySamples(history[..n], path, name);
      if c.path == path {
        ObservationsRefine(rows, cpe, c, |c.fields|, name, before);
      } else {
        OtherPathUntouched(rows, cpe, c, |c.fields|, (cpe, path, name));
        assert before + [] == before;
      }
    }
  }
}
