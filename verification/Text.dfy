/** Strings: the character order that sorting by name uses, sorting by a key, and the
    dotted parameter paths of the data model. */
module Text {

  datatype Option<+T> = None | Some(value: T)

  // ----- Order -----

  /** Strict lexicographic order on code points, as Python compares strings. */
  predicate Less(a: string, b: string) {
    b != "" && (a == "" || a[0] < b[0] || (a[0] == b[0] && Less(a[1..], b[1..])))
  }

  lemma LessIrreflexive(a: string)
    ensures !Less(a, a)
  {}

  lemma LessTransitive(a: string, b: string, c: string)
    requires Less(a, b) && Less(b, c)
    ensures Less(a, c)
  {}

  lemma {:induction false} LessTotal(a: string, b: string)
    requires a != b
    ensures Less(a, b) || Less(b, a)
  {
    if a != "" && b != "" && a[0] == b[0] {
      assert a == [a[0]] + a[1..] && b == [b[0]] + b[1..];
      LessTotal(a[1..], b[1..]);
    }
  }

  lemma LessAsymmetric(a: string, b: string)
    requires Less(a, b)
    ensures !Less(b, a)
  {}

  // ----- Sorting by a key -----

  /** Inserts before the first entry whose key is not smaller, so that equal keys keep their order. */
  function Insert<T(!new)>(key: T -> string, x: T, s: seq<T>): seq<T> {
    if s == [] then [x]
    else if Less(key(s[0]), key(x)) then [s[0]] + Insert(key, x, s[1..])
    else [x] + s
  }

  /** Python's stable `sorted(..., key=...)`. */
  function SortBy<T(!new)>(key: T -> string, s: seq<T>): seq<T> {
    if s == [] then [] else Insert(key, s[0], SortBy(key, s[1..]))
  }

  ghost predicate DistinctBy<T(!new)>(key: T -> string, s: seq<T>) {
    forall i, j | 0 <= i < j < |s| :: key(s[i]) != key(s[j])
  }

  ghost predicate Ascending<T(!new)>(key: T -> string, s: seq<T>) {
    forall i, j | 0 <= i < j < |s| :: Less(key(s[i]), key(s[j]))
  }

  lemma {:induction false} InsertKeeps<T(!new)>(key: T -> string, x: T, s: seq<T>)
    ensures multiset(Insert(key, x, s)) == multiset(s) + multiset{x}
  {
    if s != [] {
      assert s == [s[0]] + s[1..];
      if Less(key(s[0]), key(x)) {
        InsertKeeps(key, x, s[1..]);
      }
    }
  }

  /** Sorting is a permutation. */
  lemma {:induction false} SortKeeps<T(!new)>(key: T -> string, s: seq<T>)
    ensures multiset(SortBy(key, s)) == multiset(s)
  {
    if s != [] {
      assert s == [s[0]] + s[1..];
      SortKeeps(key, s[1..]);
      InsertKeeps(key, s[0], SortBy(key, s[1..]));
    }
  }

  lemma SortMembers<T(!new)>(key: T -> string, s: seq<T>)
    ensures |SortBy(key, s)| == |s|
    ensures forall x :: x in SortBy(key, s) <==> x in s
  {
    SortKeeps(key, s);
    var r := SortBy(key, s);
    assert |multiset(s)| == |s| && |multiset(r)| == |r|;
    forall x ensures x in r <==> x in s {
      assert x in r <==> x in multiset(r);
    }
  }

  lemma {:induction false} InsertAscends<T(!new)>(key: T -> string, x: T, s: seq<T>)
    requires Ascending(key, s)
    requires forall y | y in s :: key(y) != key(x)
    ensures Ascending(key, Insert(key, x, s))
  {
    if s != [] {
      if Less(key(s[0]), key(x)) {
        InsertAscends(key, x, s[1..]);
        var r := Insert(key, x, s[1..]);
        InsertKeeps(key, x, s[1..]);
        forall y | y in r ensures Less(key(s[0]), key(y)) {
          assert y in multiset(r);
          assert y == x || y in multiset(s[1..]);
          if y != x {
            var i :| 0 <= i < |s[1..]| && s[1..][i] == y;
            assert s[i + 1] == y;
          }
        }
      } else {
        LessTotal(key(x), key(s[0]));
        forall j | 0 <= j < |s| ensures Less(key(x), key(s[j])) {
          if j > 0 { LessTransitive(key(x), key(s[0]), key(s[j])); }
        }
      }
    }
  }

  /** Sorting distinct keys gives a strictly ascending sequence with the same entries. */
  lemma {:induction false} SortAscends<T(!new)>(key: T -> string, s: seq<T>)
    requires DistinctBy(key, s)
    ensures Ascending(key, SortBy(key, s))
    ensures |SortBy(key, s)| == |s|
    ensures forall x :: x in SortBy(key, s) <==> x in s
  {
    SortMembers(key, s);
    if s != [] {
      var rest := s[1..];
      assert forall i | 0 <= i < |rest| :: rest[i] == s[i + 1];
      SortAscends(key, rest);
      SortMembers(key, rest);
      var sorted := SortBy(key, rest);
      forall y | y in sorted ensures key(y) != key(s[0]) {
        assert y in rest;
        var i :| 0 <= i < |rest| && rest[i] == y;
        assert key(s[0]) != key(s[i + 1]);
      }
      InsertAscends(key, s[0], SortBy(key, rest));
    }
  }

  lemma AscendingDistinct<T(!new)>(key: T -> string, s: seq<T>)
    requires Ascending(key, s)
    ensures DistinctBy(key, s)
  {
    forall i, j | 0 <= i < j < |s| ensures key(s[i]) != key(s[j]) {
      LessIrreflexive(key(s[i]));
    }
  }

  /** An ascending sequence is determined by its set of entries. */
  lemma {:induction false} AscendingUnique<T(!new)>(key: T -> string, a: seq<T>, b: seq<T>)
    requires Ascending(key, a) && Ascending(key, b)
    requires forall x :: x in a <==> x in b
    ensures a == b
  {
    assert b == [] || b[0] in b;
    if a != [] {
      assert a[0] in b && b[0] in a;
      HeadsAgree(key, a, b);
      forall x ensures x in a[1..] <==> x in b[1..] {
        TailMembers(key, a, x);
        TailMembers(key, b, x);
      }
      AscendingUnique(key, a[1..], b[1..]);
      assert a == [a[0]] + a[1..] && b == [b[0]] + b[1..];
    }
  }

  lemma HeadsAgree<T(!new)>(key: T -> string, a: seq<T>, b: seq<T>)
    requires Ascending(key, a) && Ascending(key, b) && a != [] && b != []
    requires a[0] in b && b[0] in a
    ensures a[0] == b[0]
  {
    if a[0] != b[0] {
      var i :| 0 <= i < |b| && b[i] == a[0];
      var j :| 0 <= j < |a| && a[j] == b[0];
      assert Less(key(b[0]), key(b[i])) && Less(key(a[0]), key(a[j]));
      LessAsymmetric(key(a[0]), key(b[0]));
    }
  }

  lemma TailMembers<T(!new)>(key: T -> string, a: seq<T>, x: T)
    requires Ascending(key, a) && a != []
    ensures x in a[1..] <==> x in a && x != a[0]
  {
    if x in a[1..] {
      var i :| 0 <= i < |a[1..]| && a[1..][i] == x;
      assert a[i + 1] == x && Less(key(a[0]), key(a[i + 1]));
      LessIrreflexive(key(x));
    } else {
      assert a == [a[0]] + a[1..];
    }
  }

  /** Two lists of distinct keys with the same entries sort to the same list, whatever their order. */
  lemma SortCanonical<T(!new)>(key: T -> string, a: seq<T>, b: seq<T>)
    requires DistinctBy(key, a) && DistinctBy(key, b)
    requires forall x :: x in a <==> x in b
    ensures SortBy(key, a) == SortBy(key, b)
  {
    SortAscends(key, a);
    SortAscends(key, b);
    AscendingUnique(key, SortBy(key, a), SortBy(key, b));
  }

  /** Sorting an ascending list changes nothing. */
  lemma SortIdempotent<T(!new)>(key: T -> string, a: seq<T>)
    requires Ascending(key, a)
    ensures SortBy(key, a) == a
  {
    AscendingDistinct(key, a);
    SortAscends(key, a);
    AscendingUnique(key, SortBy(key, a), a);
  }

  function Self(s: string): string { s }

  /** A finite set of names in ascending order. */
  ghost function SortedNames(s: set<string>): (r: seq<string>)
    ensures Ascending(Self, r)
    ensures forall x :: x in r <==> x in s
    ensures |r| == |s|
  {
    if s == {} then []
    else
      var x :| x in s;
      var rest := SortedNames(s - {x});
      InsertKeeps(Self, x, rest);
      assert forall y :: y in Insert(Self, x, rest) <==> y in multiset(Insert(Self, x, rest));
      assert |multiset(Insert(Self, x, rest))| == |Insert(Self, x, rest)|;
      InsertAscends(Self, x, rest);
      Insert(Self, x, rest)
  }

  // ----- Splitting and stripping -----

  function Split(s: string, sep: char): (r: seq<string>)
    ensures r != []
  {
    if s == "" then [""]
    else
      var rest := Split(s[1..], sep);
      if s[0] == sep then [""] + rest else [[s[0]] + rest[0]] + rest[1..]
  }

  function Join(parts: seq<string>, sep: char): string {
    if parts == [] then ""
    else if |parts| == 1 then parts[0]
    else parts[0] + [sep] + Join(parts[1..], sep)
  }

  lemma {:induction false} SplitPrefix(a: string, b: string, sep: char)
    requires sep !in a
    ensures Split(a + [sep] + b, sep) == [a] + Split(b, sep)
  {
    var s := a + [sep] + b;
    if a == "" {
      assert s[1..] == b;
    } else {
      assert s[1..] == a[1..] + [sep] + b;
      SplitPrefix(a[1..], b, sep);
      assert [a[0]] + a[1..] == a;
    }
  }

  lemma {:induction false} SplitNone(a: string, sep: char)
    requires sep !in a
    ensures Split(a, sep) == [a]
  {
    if a != "" {
      SplitNone(a[1..], sep);
      assert [a[0]] + a[1..] == a;
    }
  }

  /** Splitting undoes joining, when no part holds the separator. */
  lemma {:induction false} SplitJoin(parts: seq<string>, sep: char)
    requires parts != [] && forall p | p in parts :: sep !in p
    ensures Split(Join(parts, sep), sep) == parts
  {
    if |parts| == 1 {
      SplitNone(parts[0], sep);
    } else {
      SplitJoin(parts[1..], sep);
      SplitPrefix(parts[0], Join(parts[1..], sep), sep);
      assert parts[0] + [sep] + Join(parts[1..], sep) == Join(parts, sep);
      assert parts == [parts[0]] + parts[1..];
    }
  }

  function StripRight(s: string, drop: char -> bool): string {
    if s != "" && drop(s[|s| - 1]) then StripRight(s[..|s| - 1], drop) else s
  }

  function StripLeft(s: string, drop: char -> bool): string {
    if s != "" && drop(s[0]) then StripLeft(s[1..], drop) else s
  }

  /** White space of the Latin-1 range, as Python's `str.strip` removes it. */
  predicate Blank(c: char) {
    9 as char <= c <= 13 as char || 28 as char <= c <= 32 as char || c == 133 as char || c == 160 as char
  }

  predicate Dot(c: char) { c == '.' }

  function Strip(s: string): string { StripLeft(StripRight(s, Blank), Blank) }

  // ----- Parameter paths -----

  predicate StartsWith(s: string, prefix: string) {
    |prefix| <= |s| && s[..|prefix|] == prefix
  }

  predicate IsObjectName(s: string) { s != "" && s[|s| - 1] == '.' }

  predicate Word(c: char) {
    'A' <= c <= 'Z' || 'a' <= c <= 'z' || '0' <= c <= '9' || c == '_'
  }

  predicate Segment(s: string) {
    1 <= |s| <= 64 && Word(s[0]) && forall c | c in s :: Word(c) || c == '-'
  }

  /** CONCRETE_OBJECT: one of the two roots, then at most 16 segments, each closed by a dot. */
  predicate Concrete(s: string) {
    var parts := Split(s, '.');
    && 2 <= |parts| <= 18
    && parts[|parts| - 1] == ""
    && parts[0] in {"InternetGatewayDevice", "Device"}
    && forall i | 1 <= i < |parts| - 1 :: Segment(parts[i])
  }

  /** How many segments a path has. */
  function Dots(s: string): nat {
    if s == "" then 0 else (if s[0] == '.' then 1 else 0) + Dots(s[1..])
  }

  lemma {:induction false} DotsConcat(a: string, b: string)
    ensures Dots(a + b) == Dots(a) + Dots(b)
  {
    if a == "" {
      assert a + b == b;
    } else {
      assert (a + b)[1..] == a[1..] + b;
      DotsConcat(a[1..], b);
    }
  }

  lemma {:induction false} NoDots(s: string)
    requires '.' !in s
    ensures Dots(s) == 0
  {
    if s != "" { NoDots(s[1..]); }
  }

  /** The parts of a text from its first character and the parts of the rest. */
  function WithFirst(c: char, rest: seq<string>, sep: char): seq<string>
    requires rest != []
  {
    if c == sep then [""] + rest else [[c] + rest[0]] + rest[1..]
  }

  lemma SplitStep(s: string, sep: char)
    requires s != ""
    ensures Split(s, sep) == WithFirst(s[0], Split(s[1..], sep), sep)
  {}

  lemma FirstPart(left: seq<string>, right: seq<string>, c: char, sep: char)
    requires left != []
    ensures WithFirst(c, left + right, sep) == WithFirst(c, left, sep) + right
  {
    assert (left + right)[1..] == left[1..] + right;
  }

  lemma {:induction false} SplitConcat(a: string, b: string, sep: char)
    ensures Split(a + [sep] + b, sep) == Split(a, sep) + Split(b, sep)
  {
    var s := a + [sep] + b;
    if a == "" {
      assert s[1..] == b;
    } else {
      assert s[1..] == a[1..] + [sep] + b;
      SplitConcat(a[1..], b, sep);
      SplitStep(s, sep);
      SplitStep(a, sep);
      FirstPart(Split(a[1..], sep), Split(b, sep), s[0], sep);
    }
  }

  lemma {:induction false} SplitLast(s: string, sep: char)
    ensures Split(s, sep)[|Split(s, sep)| - 1] == "" <==> s == "" || s[|s| - 1] == sep
  {
    if s != "" {
      SplitLast(s[1..], sep);
      if |s| > 1 { assert s[1..][|s| - 2] == s[|s| - 1]; }
    }
  }

  lemma ConcreteEnds(s: string)
    requires Concrete(s)
    ensures IsObjectName(s)
  {
    SplitLast(s, '.');
    assert Split("", '.') == [""];
  }

  lemma ConcreteNoEmptySegment(s: string, i: nat)
    requires Concrete(s) && i + 1 < |s| && s[i] == '.'
    ensures s[i + 1] != '.'
  {
    var a, b := s[..i], s[i + 2..];
    SplitConcat(a, ['.'] + b, '.');
    assert Split(['.'] + b, '.') == [""] + Split(b, '.') by { assert (['.'] + b)[1..] == b; }
    var k, parts := |Split(a, '.')|, Split(a + ['.'] + (['.'] + b), '.');
    assert parts[k] == "" && 1 <= k < |parts| - 1 && !Segment(parts[k]);
    assert s[i + 1] == '.' ==> s == a + ['.'] + (['.'] + b);
  }

  /** `n` names a direct child of the object `p`: nothing but its last character may be a dot. */
  predicate DirectChild(p: string, n: string) {
    |p| < |n| && StartsWith(n, p) && forall i | |p| <= i < |n| - 1 :: n[i] != '.'
  }

  /** A name is a direct child of at most one object. */
  lemma ParentUnique(p: string, q: string, n: string)
    requires IsObjectName(p) && IsObjectName(q)
    requires DirectChild(p, n) && DirectChild(q, n)
    ensures p == q
  {}

  lemma ChildDepth(p: string, n: string)
    requires DirectChild(p, n) && IsObjectName(n)
    ensures Dots(n) == Dots(p) + 1
  {}

  /** The test that a reported name passes before it is catalogued. */
  predicate ReportedUnder(p: string, n: string) {
    && n != p
    && Concrete(if IsObjectName(n) then n else n + ".")
    && StartsWith(n, p)
    && '.' !in StripRight(n[|p|..], Dot)
  }

  lemma {:induction false} StripRightShape(s: string, drop: char -> bool)
    ensures |StripRight(s, drop)| <= |s| && StripRight(s, drop) == s[..|StripRight(s, drop)|]
    ensures forall i | |StripRight(s, drop)| <= i < |s| :: drop(s[i])
  {
    if s != "" && drop(s[|s| - 1]) {
      StripRightShape(s[..|s| - 1], drop);
    }
  }

  /** What the test establishes: the name is a direct child, and an object among them is a concrete path. */
  lemma ReportedIsChild(p: string, n: string)
    requires IsObjectName(p) && ReportedUnder(p, n)
    ensures DirectChild(p, n)
    ensures IsObjectName(n) ==> Concrete(n)
  {
    var rest := n[|p|..];
    assert n == p + rest;
    StripRightShape(rest, Dot);
    var core := StripRight(rest, Dot);
    forall i | |p| <= i < |n| - 1 ensures n[i] != '.' {
      if n[i] == '.' {
        var k := i - |p|;
        assert rest[k] == '.';
        assert forall j | 0 <= j < |core| :: core[j] == rest[j] && core[j] in core;
        assert k >= |core|;
        assert rest[k + 1] == '.' && n[i + 1] == '.';
        assert IsObjectName(n) by { assert rest[|rest| - 1] == '.'; }
        ConcreteNoEmptySegment(n, i);
      }
    }
  }
}
