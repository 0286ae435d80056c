/** What storing the values of a reply leaves behind, row by row. */
module StoredValues {
  import opened Text
  import opened Domain
  import opened Queue

  predicate NewerValue(values: map<PathKey, ValueRow>, key: PathKey, now: Time) {
    key in values && values[key].observedAt > now
  }

  /** The row holds what the parameter reported, at that time and from that operation. */
  predicate HoldsValue(row: ValueRow, q: Parameter, id: Id, now: Time) {
    row.value == q.value && row.xsdType == q.xsdType && row.observedAt == now && row.operation == id
  }

  /** The rows of the first `n` parameters hold what these reported, unless a newer row stood there; every other row is
      as it was. */
  ghost predicate ValuesKept(values: map<PathKey, ValueRow>, later: map<PathKey, ValueRow>, cpe: Id, ps: seq<Parameter>,
                             n: nat, id: Id, now: Time)
    requires n <= |ps|
  {
    && (forall i | 0 <= i < n :: var k := (cpe, ps[i].name);
          k in later && if NewerValue(values, k, now) then later[k] == values[k]
              else HoldsValue(later[k], ps[i], id, now))
    && (forall k | (k in later || k in values) && (k.0 != cpe || forall i | 0 <= i < n :: ps[i].name != k.1) ::
          k in later && k in values && later[k] == values[k])
  }

  lemma NothingKept(values: map<PathKey, ValueRow>, cpe: Id, ps: seq<Parameter>, id: Id, now: Time)
    ensures ValuesKept(values, values, cpe, ps, 0, id, now)
  {}

  lemma NextValueIsNew(values: map<PathKey, ValueRow>, mid: map<PathKey, ValueRow>, cpe: Id, ps: seq<Parameter>, n: nat,
                       id: Id, now: Time)
    requires 0 < n <= |ps| && DistinctBy(ParameterName, ps) && ValuesKept(values, mid, cpe, ps, n - 1, id, now)
    ensures forall i | 0 <= i < n - 1 :: ps[i].name != ps[n - 1].name
    ensures var key := (cpe, ps[n - 1].name);
            (key in mid <==> key in values) && (key in mid ==> mid[key] == values[key])
  {
    hide HoldsValue;
    forall i | 0 <= i < n - 1 ensures ps[i].name != ps[n - 1].name {
      assert ParameterName(ps[i]) != ParameterName(ps[n - 1]);
    }
  }

  lemma OneMoreKept(values: map<PathKey, ValueRow>, mid: map<PathKey, ValueRow>, cpe: Id, ps: seq<Parameter>, n: nat,
                    id: Id, now: Time)
    requires 0 < n <= |ps| && DistinctBy(ParameterName, ps) && ValuesKept(values, mid, cpe, ps, n - 1, id, now)
    ensures ValuesKept(values, ValueOne(mid, cpe, ps[n - 1], id, now), cpe, ps, n, id, now)
  {
    hide DistinctBy;
    NextValueIsNew(values, mid, cpe, ps, n, id, now);
    var later := ValueOne(mid, cpe, ps[n - 1], id, now);
    forall i | 0 <= i < n
      ensures var k := (cpe, ps[i].name);
              k in later && if NewerValue(values, k, now) then later[k] == values[k]
                  else HoldsValue(later[k], ps[i], id, now)
    {
      assert i < n - 1 ==> (cpe, ps[i].name) in mid && later[(cpe, ps[i].name)] == mid[(cpe, ps[i].name)];
    }
    forall k | (k in later || k in values) && (k.0 != cpe || forall i | 0 <= i < n :: ps[i].name != k.1)
      ensures k in later && k in values && later[k] == values[k]
    {
      assert k != (cpe, ps[n - 1].name);
    }
  }

  /** With distinct names, the row of each parameter afterwards holds its value, its type, the time and the operation,
      unless a newer row stood there; every other row is as it was. */
  lemma {:induction false} ValuesExactly(values: map<PathKey, ValueRow>, cpe: Id, ps: seq<Parameter>, n: nat, id: Id,
                                         now: Time)
    requires n <= |ps| && DistinctBy(ParameterName, ps)
    ensures ValuesKept(values, ValuesAll(values, cpe, ps, n, id, now), cpe, ps, n, id, now)
  {
    hide ValuesKept, DistinctBy;
    if n == 0 {
      NothingKept(values, cpe, ps, id, now);
    } else {
      ValuesExactly(values, cpe, ps, n - 1, id, now);
      OneMoreKept(values, ValuesAll(values, cpe, ps, n - 1, id, now), cpe, ps, n, id, now);
    }
  }

  /** A row that was not there before, as it is now, was reported. */
  lemma KeptRow(values: map<PathKey, ValueRow>, later: map<PathKey, ValueRow>, cpe: Id, ps: seq<Parameter>, id: Id,
                now: Time, k: PathKey)
    requires ValuesKept(values, later, cpe, ps, |ps|, id, now) && k in later && !(k in values && later[k] == values[k])
    ensures k.0 == cpe && exists q :: q in ps && q.name == k.1 && HoldsValue(later[k], q, id, now)
  {
    if k.0 == cpe && exists i :: 0 <= i < |ps| && ps[i].name == k.1 {
      var i :| 0 <= i < |ps| && ps[i].name == k.1;
      assert k == (cpe, ps[i].name) && ps[i] in ps;
    }
  }
}
