/** When the order in which observations arrive matters to a register, and exactly when it does not. */
module ArrivalOrder {
  import opened Text
  import opened Domain
  import opened Registers

  // ----- Registers -----

  /** No sample is newer than `x`. */
  ghost predicate Latest<O(!new)>(history: seq<Sample<O>>, x: Sample<O>) {
    x in history && forall y | y in history :: y.at <= x.at
  }

  /** There is one newest sample, and it is valid or else no sample is: something a caller can read off the batch. */
  ghost predicate Settles<O(!new)>(history: seq<Sample<O>>, x: Sample<O>) {
    && Latest(history, x)
    && (forall y | y in history && y.at == x.at :: y == x)
    && (x.valid || forall y | y in history :: !y.valid)
  }

  ghost predicate Settled<O(!new)>(history: seq<Sample<O>>) {
    history == [] || exists x :: Settles(history, x)
  }

  lemma LastIsLatest<O(!new)>(history: seq<Sample<O>>)
    requires history != []
    ensures RecordAll(history).Held? && Latest(history, RecordAll(history).last)
  {
    hide RecordAll;
    RegisterExplained(history);
    var i :| 0 <= i < |history| && Newest(history, i) && RecordAll(history).last == history[i];
    forall y | y in history ensures y.at <= history[i].at {
      var j :| 0 <= j < |history| && history[j] == y;
    }
  }

  /** When every newest sample is valid, the value held is the sample held. */
  lemma NewestValidWins<O(!new)>(history: seq<Sample<O>>)
    requires history != [] && forall x | Latest(history, x) :: x.valid
    ensures RecordAll(history).Held? && RecordAll(history).value == Some(RecordAll(history).last)
  {
    hide RecordAll;
    RegisterExplained(history);
    LastIsLatest(history);
    var r := RecordAll(history);
    var i :| 0 <= i < |history| && Newest(history, i) && r.last == history[i];
    assert history[i].valid;
    var k :| 0 <= k < |history| && LastValid(history, k) && r.value == Some(history[k]);
    assert k == i;
  }

  lemma HeldIsValid<O(!new)>(history: seq<Sample<O>>)
    requires RecordAll(history).Held? && RecordAll(history).value.Some?
    ensures RecordAll(history).value.value in history && RecordAll(history).value.value.valid
  {
    hide RecordAll;
    RegisterExplained(history);
  }

  lemma SettledRegister<O(!new)>(history: seq<Sample<O>>, x: Sample<O>)
    requires Settles(history, x)
    ensures RecordAll(history) == Held(x, if x.valid then Some(x) else None)
  {
    hide RecordAll;
    LastIsLatest(history);
    if x.valid {
      NewestValidWins(history);
    } else if RecordAll(history).value.Some? {
      HeldIsValid(history);
    }
  }

  /** A sample that arrives first and is as new as any other is what the register holds in the end. */
  lemma {:induction false} FirstWins<O(!new)>(x: Sample<O>, rest: seq<Sample<O>>)
    requires forall y | y in rest :: y.at <= x.at
    ensures RecordAll([x] + rest) == Held(x, if x.valid then Some(x) else None)
  {
    if rest == [] {
      assert [x] + rest == [x] && [x][..0] == [];
      assert RecordAll([x][..0]) == Blank;
    } else {
      var n := |rest| - 1;
      assert ([x] + rest)[..|rest|] == [x] + rest[..n];
      assert rest[n] in rest && forall y | y in rest[..n] :: y in rest;
      FirstWins(x, rest[..n]);
    }
  }

  /** A valid sample that arrives first leaves some value. */
  lemma FirstValidKept<O(!new)>(x: Sample<O>, rest: seq<Sample<O>>)
    requires x.valid
    ensures RecordAll([x] + rest).Held? && RecordAll([x] + rest).value.Some?
  {
    hide RecordAll;
    RegisterExplained([x] + rest);
    assert Breaks([x] + rest, 0);
  }

  /** The same entries with the one at `i` moved to the front. */
  function Front<T>(s: seq<T>, i: nat): seq<T>
    requires i < |s|
  {
    [s[i]] + (s[..i] + s[i + 1..])
  }

  lemma FrontPermutes<T>(s: seq<T>, i: nat)
    requires i < |s|
    ensures multiset(Front(s, i)) == multiset(s)
  {
    assert s == s[..i] + [s[i]] + s[i + 1..];
  }

  lemma SameMembers<T(!new)>(a: seq<T>, b: seq<T>)
    requires multiset(a) == multiset(b)
    ensures forall x :: x in a <==> x in b
  {
    forall x ensures x in a <==> x in b {
      assert x in a <==> x in multiset(a);
      assert x in b <==> x in multiset(b);
    }
  }

  /** What the register holds when the sample `x` arrives first. */
  lemma {:induction false} FrontRegister<O(!new)>(history: seq<Sample<O>>, x: Sample<O>) returns (g: seq<Sample<O>>)
    requires x in history
    ensures multiset(g) == multiset(history)
    ensures Latest(history, x) ==> RecordAll(g) == Held(x, if x.valid then Some(x) else None)
    ensures x.valid ==> RecordAll(g).Held? && RecordAll(g).value.Some?
  {
    var i :| 0 <= i < |history| && history[i] == x;
    g := Front(history, i);
    FrontPermutes(history, i);
    SameMembers(g, history);
    var rest := history[..i] + history[i + 1..];
    assert forall y | y in rest :: y in g;
    if Latest(history, x) { FirstWins(x, rest); }
    if x.valid { FirstValidKept(x, rest); }
  }

  /** Every order of arrival leaves the same register if and only if there is one newest sample, which is valid unless
      none is. */
  lemma ArrivalOrderFree<O(!new)>(history: seq<Sample<O>>)
    ensures (forall g | multiset(g) == multiset(history) :: RecordAll(g) == RecordAll(history)) <==> Settled(history)
  {
    hide RecordAll;
    if Settled(history) {
      forall g | multiset(g) == multiset(history) ensures RecordAll(g) == RecordAll(history) {
        SameMembers(g, history);
        if history != [] {
          var x :| Settles(history, x);
          assert Settles(g, x);
          SettledRegister(history, x);
          SettledRegister(g, x);
        } else {
          assert |multiset(g)| == 0;
        }
      }
    } else {
      LastIsLatest(history);
      var x := RecordAll(history).last;
      assert !Settles(history, x);
      var y :| y in history && y.at <= x.at && y != x && (y.at == x.at || (y.valid && !x.valid));
      var g := FrontRegister(history, x);
      var h := FrontRegister(history, y);
      assert RecordAll(g) != RecordAll(h);
    }
  }

  // ----- The column of a CPE -----

  predicate Reports(inv: Inventory, f: Field) { !Observed(inv, f).NotReported? }

  lemma {:induction false} SamplesMembers(history: seq<Inventory>, f: Field)
    ensures forall x :: x in Samples(history, f) <==> exists inv ::
            inv in history && Reports(inv, f) && SampleOf(inv, f) == x
  {
    hide SampleOf;
    if history != [] {
      var n := |history| - 1;
      SamplesMembers(history[..n], f);
      assert history == history[..n] + [history[n]];
    }
  }

  lemma {:induction false} SamplesFirst(inv: Inventory, rest: seq<Inventory>, f: Field)
    requires Reports(inv, f)
    ensures Samples([inv] + rest, f) == [SampleOf(inv, f)] + Samples(rest, f)
  {
    hide SampleOf;
    if rest == [] {
      assert [inv] + rest == [inv] && [inv][..0] == [];
      assert Samples([inv][..0], f) == [];
    } else {
      var n := |rest| - 1;
      assert ([inv] + rest)[..|rest|] == [inv] + rest[..n];
      SamplesFirst(inv, rest[..n], f);
    }
  }

  /** The column after a history, for a CPE without a row for the field. */
  ghost function ColumnAfter(s: Store, cpe: Id, history: seq<Inventory>, f: Field): Option<string>
    requires cpe in s.cpes
  {
    Column(UpdateAll(s, cpe, history).cpes[cpe], f)
  }

  ghost predicate Fresh(s: Store, cpe: Id, f: Field) {
    cpe in s.cpes && RowAt(s.fields, cpe, f).None? && Column(s.cpes[cpe], f).None?
  }

  function TextOf(r: Register<FieldSample>): Option<string> {
    if r.Held? && r.value.Some? && r.value.value.obs.obs.ValidText? then Some(r.value.value.obs.obs.value) else None
  }

  lemma ColumnIsHeld(s: Store, cpe: Id, history: seq<Inventory>, f: Field)
    requires Fresh(s, cpe, f)
    ensures var r := RecordAll(Samples(history, f));
            && ColumnAfter(s, cpe, history, f) == TextOf(r)
            && (ColumnAfter(s, cpe, history, f).Some? <==> r.Held? && r.value.Some?)
  {
    hide UpdateAll, RecordAll;
    InventoryRefinesHistory(s, cpe, history, f);
  }

  /** The newest reports of the field. */
  ghost predicate NewestReport(history: seq<Inventory>, inv: Inventory, f: Field) {
    && inv in history && Reports(inv, f)
    && forall other | other in history && Reports(other, f) :: other.receivedAt <= inv.receivedAt
  }

  /** All the newest reports of the field are valid and agree, or no report of it is valid. */
  ghost predicate ColumnSettled(history: seq<Inventory>, f: Field) {
    || (forall inv | inv in history :: !Observed(inv, f).ValidText?)
    || (&& (forall inv | NewestReport(history, inv, f) :: Observed(inv, f).ValidText?)
        && (forall a, b | NewestReport(history, a, f) && NewestReport(history, b, f) ::
            Observed(a, f).value == Observed(b, f).value))
  }

  lemma LatestIsNewest(history: seq<Inventory>, f: Field, x: Sample<FieldSample>)
    requires Latest(Samples(history, f), x)
    ensures exists inv :: NewestReport(history, inv, f) && SampleOf(inv, f) == x
  {
    SamplesMembers(history, f);
    var inv :| inv in history && Reports(inv, f) && SampleOf(inv, f) == x;
    forall other | other in history && Reports(other, f) ensures other.receivedAt <= inv.receivedAt {
      assert SampleOf(other, f) in Samples(history, f);
    }
  }

  /** The column of a settled history: none, or what its newest reports say. */
  lemma SettledColumn(s: Store, cpe: Id, history: seq<Inventory>, f: Field)
    requires Fresh(s, cpe, f) && ColumnSettled(history, f)
    ensures ColumnAfter(s, cpe, history, f).Some? <==> exists inv :: inv in history && Observed(inv, f).ValidText?
    ensures forall inv | NewestReport(history, inv, f) && ColumnAfter(s, cpe, history, f).Some? ::
              ColumnAfter(s, cpe, history, f) == Some(Observed(inv, f).value)
  {
    hide RecordAll, ColumnAfter, Latest, NewestReport;
    var samples := Samples(history, f);
    ColumnIsHeld(s, cpe, history, f);
    SamplesMembers(history, f);
    var r := RecordAll(samples);
    if forall inv | inv in history :: !Observed(inv, f).ValidText? {
      if r.Held? && r.value.Some? { HeldIsValid(samples); }
    } else {
      var v :| v in history && Observed(v, f).ValidText?;
      assert SampleOf(v, f) in samples;
      forall x | Latest(samples, x) ensures x.valid { LatestIsNewest(history, f, x); }
      NewestValidWins(samples);
      LastIsLatest(samples);
      LatestIsNewest(history, f, r.last);
    }
  }

  lemma SameColumnSettled(g: seq<Inventory>, history: seq<Inventory>, f: Field)
    requires forall inv :: inv in g <==> inv in history
    ensures ColumnSettled(g, f) == ColumnSettled(history, f)
    ensures forall inv :: NewestReport(g, inv, f) <==> NewestReport(history, inv, f)
  {}

  /** The column when the inventory `inv` arrives first. */
  lemma FirstColumn(s: Store, cpe: Id, inv: Inventory, rest: seq<Inventory>, f: Field)
    requires Fresh(s, cpe, f) && Reports(inv, f)
    ensures (forall other | other in rest && Reports(other, f) :: other.receivedAt <= inv.receivedAt) ==>
              ColumnAfter(s, cpe, [inv] + rest, f) == if Observed(inv, f).ValidText? then Some(Observed(inv, f).value)
                  else None
    ensures Observed(inv, f).ValidText? ==> ColumnAfter(s, cpe, [inv] + rest, f).Some?
  {
    hide RecordAll, ColumnAfter;
    SamplesFirst(inv, rest, f);
    ColumnIsHeld(s, cpe, [inv] + rest, f);
    if forall other | other in rest && Reports(other, f) :: other.receivedAt <= inv.receivedAt {
      SamplesMembers(rest, f);
      FirstWins(SampleOf(inv, f), Samples(rest, f));
    }
    if Observed(inv, f).ValidText? { FirstValidKept(SampleOf(inv, f), Samples(rest, f)); }
  }

  /** A value of the column was reported. */
  lemma ColumnReported(s: Store, cpe: Id, history: seq<Inventory>, f: Field)
    requires Fresh(s, cpe, f) && ColumnAfter(s, cpe, history, f).Some?
    ensures exists inv ::
      inv in history && Observed(inv, f).ValidText? && ColumnAfter(s, cpe, history, f) == Some(Observed(inv, f).value)
  {
    hide RecordAll, ColumnAfter;
    ColumnIsHeld(s, cpe, history, f);
    HeldIsValid(Samples(history, f));
    SamplesMembers(history, f);
  }

  /** The same inventories in an order in which `inv` arrives first. */
  lemma FrontColumn(s: Store, cpe: Id, history: seq<Inventory>, inv: Inventory, f: Field) returns (g: seq<Inventory>)
    requires Fresh(s, cpe, f) && inv in history && Reports(inv, f)
    ensures multiset(g) == multiset(history)
    ensures NewestReport(history, inv, f) ==>
              ColumnAfter(s, cpe, g, f) == if Observed(inv, f).ValidText? then Some(Observed(inv, f).value) else None
    ensures Observed(inv, f).ValidText? ==> ColumnAfter(s, cpe, g, f).Some?
  {
    hide ColumnAfter;
    var i :| 0 <= i < |history| && history[i] == inv;
    var rest := history[..i] + history[i + 1..];
    g := Front(history, i);
    FrontPermutes(history, i);
    SameMembers(g, history);
    assert forall other | other in rest :: other in g;
    FirstColumn(s, cpe, inv, rest, f);
  }

  /** Every order of arrival leaves the same column if and only if all the newest reports of the field are valid and
      agree, or none of its reports is valid. */
  lemma ColumnOrderFree(s: Store, cpe: Id, history: seq<Inventory>, f: Field)
    requires Fresh(s, cpe, f)
    ensures (forall g | multiset(g) == multiset(history) ::
      ColumnAfter(s, cpe, g, f) == ColumnAfter(s, cpe, history, f))
            <==> ColumnSettled(history, f)
  {
    hide ColumnAfter;
    if ColumnSettled(history, f) {
      forall g | multiset(g) == multiset(history) ensures ColumnAfter(s, cpe, g, f) == ColumnAfter(s, cpe, history, f) {
        SameMembers(g, history);
        SettledAlike(s, cpe, g, history, f);
      }
    } else {
      var v :| v in history && Observed(v, f).ValidText?;
      if a :| NewestReport(history, a, f) && !Observed(a, f).ValidText? {
        var g := FrontColumn(s, cpe, history, a, f);
        var h := FrontColumn(s, cpe, history, v, f);
        assert ColumnAfter(s, cpe, g, f) != ColumnAfter(s, cpe, h, f);
      } else {
        var a, b :| NewestReport(history, a, f) && NewestReport(history, b, f)
            && Observed(a, f).value != Observed(b, f).value;
        var g := FrontColumn(s, cpe, history, a, f);
        var h := FrontColumn(s, cpe, history, b, f);
        assert ColumnAfter(s, cpe, g, f) != ColumnAfter(s, cpe, h, f);
      }
    }
  }

  lemma SettledAlike(s: Store, cpe: Id, g: seq<Inventory>, history: seq<Inventory>, f: Field)
    requires Fresh(s, cpe, f) && ColumnSettled(history, f) && forall inv :: inv in g <==> inv in history
    ensures ColumnAfter(s, cpe, g, f) == ColumnAfter(s, cpe, history, f)
  {
    hide ColumnAfter, NewestReport;
    SameColumnSettled(g, history, f);
    SettledColumn(s, cpe, g, f);
    SettledColumn(s, cpe, history, f);
    if v :| v in history && Observed(v, f).ValidText? {
      SamplesMembers(history, f);
      assert SampleOf(v, f) in Samples(history, f);
      LastIsLatest(Samples(history, f));
      LatestIsNewest(history, f, RecordAll(Samples(history, f)).last);
    }
  }

  // ----- Two inventories whose order matters -----

  /** A valid report and a later one that is not: the column keeps the value in one order and never gets it in the
      other. */
  lemma EarlierValueLost(s: Store, cpe: Id, early: Inventory, late: Inventory, f: Field)
    requires Fresh(s, cpe, f) && early.receivedAt < late.receivedAt && Observed(early, f).ValidText?
             && Observed(late, f).InvalidText?
    ensures ColumnAfter(s, cpe, [early, late], f) == Some(Observed(early, f).value)
    ensures ColumnAfter(s, cpe, [late, early], f) == None
  {
    hide ColumnAfter;
    assert [early] + [late] == [early, late] && [late] + [early] == [late, early];
    FirstColumn(s, cpe, early, [late], f);
    FirstColumn(s, cpe, late, [early], f);
    ColumnReported(s, cpe, [early, late], f);
  }

  const EARLY := Inventory(NotReported, ValidText("V5R022C00S364", "Device.DeviceInfo.SoftwareVersion"), NotReported,
                           "generic-device-info", "1", 1, Inform, None)

  const LATE := Inventory(NotReported, InvalidText(Some("Device.DeviceInfo.SoftwareVersion"), EmptyText), NotReported,
                          "generic-device-info", "1", 2, Inform, None)

  /** A valid firmware of time 1 and an empty one of time 2. */
  lemma ColumnDependsOnArrival(s: Store, cpe: Id)
    requires Fresh(s, cpe, FirmwareField)
    ensures ColumnAfter(s, cpe, [EARLY, LATE], FirmwareField) == Some("V5R022C00S364")
    ensures ColumnAfter(s, cpe, [LATE, EARLY], FirmwareField) == None
  {
    hide ColumnAfter;
    EarlierValueLost(s, cpe, EARLY, LATE, FirmwareField);
  }
}
