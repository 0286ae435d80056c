/** Addresses replaced by documentation addresses, numbered by first occurrence. */
module Relabel {
  import opened Text
  import opened Numbers
  import opened Telemetry

  /** The labels given so far, by canonical address, and how many of each version. */
  datatype Labels = Labels(given: map<string, string>, v4: nat, v6: nat)

  const NONE := Labels(map[], 0, 0)

  const MOST := 128

  function Alias(v4: bool, i: nat): string {
    if v4 then "192.0.2." + InBase(i, false) else "2001:db8::" + InBase(i, true)
  }

  predicate AddressChar(c: char) { HexDigit(c) || 'A' <= c <= 'F' || c == ':' || c == '.' }

  predicate Scopeless(s: string) { '%' !in s }

  /** What is relied on of the address library: only digits, colons and dots without a zone, canonical texts are
      read back as the same address, and documentation addresses are canonical and ordinary. */
  ghost predicate AddressLib(lib: Lib) {
    && (forall s :: lib.parse(s).Some? && Scopeless(s) ==>
          && s != "" && (forall c | c in s :: AddressChar(c))
          && lib.parse(lib.parse(s).value.text) == lib.parse(s) && Scopeless(lib.parse(s).value.text))
    && (forall v4, i: nat :: 1 <= i <= MOST ==>
          lib.parse(Alias(v4, i)) == Some(Address(v4, Alias(v4, i), false, false)))
  }

  function Count(s: Labels, v4: bool): nat { if v4 then s.v4 else s.v6 }

  /** Gives an address a label, unless it has one. */
  function Assign(s: Labels, a: Address): (r: Labels)
    ensures a.text in r.given
  {
    if a.text in s.given then s
    else
      var i := Count(s, a.v4) + 1;
      Labels(s.given[a.text := Alias(a.v4, i)], if a.v4 then i else s.v4, if a.v4 then s.v6 else i)
  }

  lemma LabelsDiffer(v4: bool, i: nat, w4: bool, j: nat)
    requires Alias(v4, i) == Alias(w4, j)
    ensures v4 == w4 && i == j
  {
    assert Alias(v4, i)[0] == (if v4 then '1' else '2') && Alias(w4, j)[0] == (if w4 then '1' else '2');
    if v4 {
      assert Alias(v4, i)[8..] == InBase(i, false) && Alias(w4, j)[8..] == InBase(j, false);
      WrittenOnce(i, j, false);
    } else {
      assert Alias(v4, i)[10..] == InBase(i, true) && Alias(w4, j)[10..] == InBase(j, true);
      WrittenOnce(i, j, true);
    }
  }

  ghost predicate GivenLabel(s: Labels, v4: bool, l: string) {
    exists i: nat :: 1 <= i <= Count(s, v4) && l == Alias(v4, i)
  }

  /** Every label is one of those numbered so far for the version of its address, and no two addresses share one. */
  ghost predicate Proper(lib: Lib, s: Labels) {
    && (forall t | t in s.given :: lib.parse(t).Some? && GivenLabel(s, lib.parse(t).value.v4, s.given[t]))
    && (forall t, u | t in s.given && u in s.given && s.given[t] == s.given[u] :: t == u)
  }

  /** A run over labels only: each is its own label, and the ones that occur are exactly the ones numbered so far. */
  ghost predicate Identity(s: Labels) {
    && (forall t | t in s.given :: s.given[t] == t && exists v4 :: GivenLabel(s, v4, t))
    && (forall v4, i: nat :: 1 <= i <= Count(s, v4) ==> Alias(v4, i) in s.given)
  }

  /** A first run, and a run over what the first one produced. */
  ghost predicate Linked(s: Labels, again: Labels) {
    && s.v4 == again.v4 && s.v6 == again.v6 && Identity(again)
    && forall t | t in s.given :: s.given[t] in again.given
  }

  predicate Canonical(lib: Lib, a: Address) { lib.parse(a.text) == Some(a) }

  lemma LabelUnused(s: Labels, l: string, v4: bool, w4: bool)
    requires GivenLabel(s, w4, l)
    ensures l != Alias(v4, Count(s, v4) + 1)
  {
    var i: nat :| 1 <= i <= Count(s, w4) && l == Alias(w4, i);
    if l == Alias(v4, Count(s, v4) + 1) { LabelsDiffer(w4, i, v4, Count(s, v4) + 1); }
  }

  /** Equal addresses get equal labels, different ones different labels. */
  lemma AssignProper(lib: Lib, s: Labels, a: Address)
    requires Proper(lib, s) && Canonical(lib, a)
    ensures Proper(lib, Assign(s, a)) && GivenLabel(Assign(s, a), a.v4, Assign(s, a).given[a.text])
    ensures forall t | t in s.given :: t in Assign(s, a).given && Assign(s, a).given[t] == s.given[t]
    ensures Assign(s, a).v4 + Assign(s, a).v6 <= s.v4 + s.v6 + 1
  {
    hide Alias;
    var r := Assign(s, a);
    if a.text !in s.given {
      forall t | t in s.given ensures GivenLabel(r, lib.parse(t).value.v4, s.given[t])
          && s.given[t] != Alias(a.v4, Count(s, a.v4) + 1) {
        LabelUnused(s, s.given[t], a.v4, lib.parse(t).value.v4);
        var i: nat :| 1 <= i <= Count(s, lib.parse(t).value.v4) && s.given[t] == Alias(lib.parse(t).value.v4, i);
      }
      assert GivenLabel(r, a.v4, Alias(a.v4, Count(r, a.v4)));
    }
  }

  /** In a run over labels, the next number's label is new and becomes its own label. */
  lemma IdentityGrows(s: Labels, v4: bool)
    requires Identity(s)
    ensures var l := Alias(v4, Count(s, v4) + 1); l !in s.given && Identity(Assign(s, Address(v4, l, false, false)))
  {
    hide Alias;
    var l := Alias(v4, Count(s, v4) + 1);
    if l in s.given {
      var w4 :| GivenLabel(s, w4, l);
      LabelUnused(s, l, v4, w4);
    }
    var r := Assign(s, Address(v4, l, false, false));
    forall t | t in r.given ensures r.given[t] == t && exists w4 :: GivenLabel(r, w4, t) {
      if t == l {
        assert GivenLabel(r, v4, t);
      } else {
        var w4 :| GivenLabel(s, w4, t);
        GivenStays(s, r, w4, t);
      }
    }
    forall w4, i: nat | 1 <= i <= Count(r, w4) ensures Alias(w4, i) in r.given {
      if w4 == v4 && i == Count(r, v4) {} else { assert i <= Count(s, w4); }
    }
  }

  lemma GivenStays(s: Labels, r: Labels, v4: bool, l: string)
    requires GivenLabel(s, v4, l) && s.v4 <= r.v4 && s.v6 <= r.v6
    ensures GivenLabel(r, v4, l)
  {}

  /** Labelling a label gives it back, and keeps the two runs in step. */
  lemma AssignAgain(s: Labels, again: Labels, a: Address)
    requires Linked(s, again)
    ensures var l := Assign(s, a).given[a.text]; var r := Assign(again, Address(a.v4, l, false, false));
            Linked(Assign(s, a), r) && r.given[l] == l
  {
    hide Alias, GivenLabel, Identity;
    if a.text in s.given {
      OwnLabel(again, s.given[a.text]);
    } else {
      IdentityGrows(again, a.v4);
    }
  }

  lemma OwnLabel(s: Labels, t: string)
    requires Identity(s) && t in s.given
    ensures s.given[t] == t
  {}

  // ----- Lists of addresses -----

  /** The parts of a list with every address replaced; None when a part is not an address. */
  function Relabelled(lib: Lib, s: Labels, parts: seq<string>): Option<(Labels, seq<string>)>
    decreases |parts|
  {
    if parts == [] then Some((s, []))
    else
      match lib.parse(Strip(parts[0]))
      case None => None
      case Some(a) =>
        var next := Assign(s, a);
        match Relabelled(lib, next, parts[1..])
        case None => None
        case Some(rest) => Some((rest.0, [next.given[a.text]] + rest.1))
  }

  predicate Addresses(lib: Lib, parts: seq<string>) {
    forall p | p in parts :: lib.parse(Strip(p)).Some? && Scopeless(Strip(p))
  }

  /** Every part of a list is replaced by the label of its address. */
  lemma {:induction false} RelabelledParts(lib: Lib, s: Labels, parts: seq<string>)
    requires AddressLib(lib) && Proper(lib, s) && Addresses(lib, parts)
    ensures Relabelled(lib, s, parts).Some?
    ensures var (r, labels) := Relabelled(lib, s, parts).value;
            && Proper(lib, r) && |labels| == |parts| && r.v4 + r.v6 <= s.v4 + s.v6 + |parts|
            && (forall t | t in s.given :: t in r.given && r.given[t] == s.given[t])
            && forall k | 0 <= k < |parts| ::
                 var a := lib.parse(Strip(parts[k])).value;
                 a.text in r.given && labels[k] == r.given[a.text] && GivenLabel(r, a.v4, labels[k])
    decreases |parts|
  {
    hide Alias, Strip, Assign, Proper;
    if parts != [] {
      assert parts[0] in parts;
      var a := lib.parse(Strip(parts[0])).value;
      AssignProper(lib, s, a);
      assert Addresses(lib, parts[1..]) by { assert forall p | p in parts[1..] :: p in parts; }
      RelabelledParts(lib, Assign(s, a), parts[1..]);
      var (r, labels) := Relabelled(lib, s, parts).value;
      StillGiven(lib, r, a);
    }
  }

  lemma StillGiven(lib: Lib, r: Labels, a: Address)
    requires Proper(lib, r) && Canonical(lib, a) && a.text in r.given
    ensures GivenLabel(r, a.v4, r.given[a.text])
  {}

  /** A label is clean text that stands for itself. */
  lemma LabelText(lib: Lib, s: Labels, v4: bool, l: string)
    requires AddressLib(lib) && GivenLabel(s, v4, l) && s.v4 + s.v6 <= MOST
    ensures lib.parse(l) == Some(Address(v4, l, false, false)) && Strip(l) == l && l != "" && |l| <= 13
    ensures forall c | c in l :: AddressChar(c)
    ensures Scopeless(l)
  {
    var i: nat :| 1 <= i <= Count(s, v4) && l == Alias(v4, i);
    ShortNumber(i, !v4);
    forall c | c in l ensures AddressChar(c) && c != '%' && !Blank(c) {
      LabelChars(v4, i, c);
    }
    Unpadded(l);
  }

  lemma LabelChars(v4: bool, i: nat, c: char)
    requires c in Alias(v4, i)
    ensures AddressChar(c) && c != '%' && !Blank(c)
  {}

  lemma Unpadded(s: string)
    requires forall c | c in s :: !Blank(c)
    ensures Strip(s) == s
  {}

  /** Relabelling a relabelled list changes nothing and keeps the two runs in step. */
  lemma {:induction false} RelabelledAgain(lib: Lib, s: Labels, again: Labels, parts: seq<string>)
    requires AddressLib(lib) && Proper(lib, s) && Addresses(lib, parts) && Linked(s, again)
             && s.v4 + s.v6 + |parts| <= MOST
    ensures Relabelled(lib, s, parts).Some?
    ensures var (r, labels) := Relabelled(lib, s, parts).value;
            Relabelled(lib, again, labels).Some?
            && var (q, same) := Relabelled(lib, again, labels).value; Linked(r, q) && same == labels
    decreases |parts|
  {
    hide Alias, Strip, Assign, Proper, Linked, GivenLabel;
    if parts != [] {
      assert parts[0] in parts;
      var a := lib.parse(Strip(parts[0])).value;
      AssignProper(lib, s, a);
      AssignAgain(s, again, a);
      var next := Assign(s, a);
      var l := next.given[a.text];
      LabelText(lib, next, a.v4, l);
      assert Addresses(lib, parts[1..]) by { assert forall p | p in parts[1..] :: p in parts; }
      RelabelledAgain(lib, next, Assign(again, Address(a.v4, l, false, false)), parts[1..]);
      var (r, labels) := Relabelled(lib, s, parts).value;
      assert labels[0] == l && labels[1..] == Relabelled(lib, next, parts[1..]).value.1;
    }
  }

  lemma NoneLinked(lib: Lib)
    ensures Proper(lib, NONE) && Linked(NONE, NONE)
  {}
}
