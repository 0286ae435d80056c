/** Which names and paths the telemetry mappings recognise, letter by letter. */
module FieldNames {
  import opened Text
  import opened Numbers
  import opened Domain
  import opened Policies
  import opened Telemetry

  // ----- Splitting is undone by joining -----

  /** Joining undoes splitting, and no part holds the separator. */
  lemma {:induction false} JoinSplit(s: string, sep: char)
    ensures Join(Split(s, sep), sep) == s && forall p | p in Split(s, sep) :: sep !in p
  {
    if s != "" {
      JoinSplit(s[1..], sep);
      var rest := Split(s[1..], sep);
      if s[0] == sep {
        assert ([""] + rest)[1..] == rest;
      } else {
        var parts := [[s[0]] + rest[0]] + rest[1..];
        assert parts[1..] == rest[1..];
        if |rest| > 1 { assert Join(rest, sep) == rest[0] + [sep] + Join(rest[1..], sep); }
      }
    }
  }

  /** A text splits into parts without the separator exactly when it is their join. */
  lemma SplitIs(s: string, parts: seq<string>, sep: char)
    requires parts != [] && forall p | p in parts :: sep !in p
    ensures Split(s, sep) == parts <==> s == Join(parts, sep)
  {
    JoinSplit(s, sep);
    SplitJoin(parts, sep);
  }

  lemma DigitsHoldNo(s: string, c: char)
    requires Digits(s) && !Digit(c)
    ensures c !in s
  {}

  // ----- Instance numbers -----

  lemma {:induction false} DigitsBound(s: string, limit: nat)
    requires Digits(s) && |s| <= 4 && limit == (if |s| == 1 then 10 else if |s| == 2 then 100 else if |s| == 3 then 1000
                                               else 10000)
    ensures NatValue(s) < limit && (s[0] != '0' ==> 1 <= NatValue(s))
  {
    var n := |s| - 1;
    assert Digit(s[n]);
    if n == 0 {
      assert s[..0] == "" && NatValue(s[..0]) == 0;
    } else {
      DigitsBound(s[..n], limit / 10);
    }
  }

  /** Digits that do not start with a zero are those of their number. */
  lemma {:induction false} WrittenBack(s: string)
    requires Digits(s) && s[0] != '0'
    ensures NatValue(s) >= 1 && Decimal(NatValue(s)) == s
  {
    var n := |s| - 1;
    assert Digit(s[n]);
    if n == 0 {
      assert s[..0] == "" && NatValue(s[..0]) == 0;
      assert s == [s[0]];
    } else {
      WrittenBack(s[..n]);
      assert s == s[..n] + [s[n]];
      assert NatValue(s) / 10 == NatValue(s[..n]) && NatValue(s) % 10 == s[n] as int - '0' as int;
    }
  }

  lemma {:induction false} WrittenShape(k: nat)
    requires 1 <= k
    ensures Decimal(k)[0] != '0' && (k < 10000 ==> |Decimal(k)| <= 4)
    decreases k
  {
    if k >= 10 {
      WrittenShape(k / 10);
      if k < 10000 { ShortNumber(k / 10, false); }
    }
  }

  /** Instance numbers are 1 to 9999, as they are written. */
  lemma InstanceExactly(s: string)
    ensures Instance(s) <==> exists k: nat :: 1 <= k <= 9999 && s == Decimal(k)
  {
    if Instance(s) {
      WrittenBack(s);
      DigitsBound(s, if |s| == 1 then 10 else if |s| == 2 then 100 else if |s| == 3 then 1000 else 10000);
      assert 1 <= NatValue(s) <= 9999 && s == Decimal(NatValue(s));
    }
    if k: nat :| 1 <= k <= 9999 && s == Decimal(k) { WrittenShape(k); }
  }

  // ----- Paths -----

  function Dotted(parts: seq<string>): string { Join(parts, '.') }

  function WanAt(i: nat, j: nat, k: nat): string {
    Dotted(["InternetGatewayDevice", "WANDevice", Decimal(i), "WANConnectionDevice", Decimal(j), "WANPPPConnection",
            Decimal(k), ""])
  }

  function OpticalAt(i: nat): string {
    Dotted(["InternetGatewayDevice", "WANDevice", Decimal(i), "X_GponInterafceConfig", ""])
  }

  function AddressAt(k: nat): string { Dotted(["X_HW_IPv6", "IPv6Address", Decimal(k), "IPAddress"]) }

  predicate Numbered(k: nat) { 1 <= k <= 9999 }

  lemma NumberedInstance(k: nat)
    requires Numbered(k)
    ensures Instance(Decimal(k)) && '.' !in Decimal(k)
  {
    InstanceExactly(Decimal(k));
    DigitsHoldNo(Decimal(k), '.');
  }

  lemma WanPathNumbered(path: string)
    requires WanPath(path)
    ensures exists i, j, k :: Numbered(i) && Numbered(j) && Numbered(k) && path == WanAt(i, j, k)
  {
    hide Instance, Join, Decimal, Split;
    var p := Split(path, '.');
    InstanceExactly(p[2]);
    InstanceExactly(p[4]);
    InstanceExactly(p[6]);
    var i: nat :| 1 <= i <= 9999 && p[2] == Decimal(i);
    var j: nat :| 1 <= j <= 9999 && p[4] == Decimal(j);
    var k: nat :| 1 <= k <= 9999 && p[6] == Decimal(k);
    JoinSplit(path, '.');
    assert p == ["InternetGatewayDevice", "WANDevice", p[2], "WANConnectionDevice", p[4], "WANPPPConnection", p[6], ""];
    assert Numbered(i) && Numbered(j) && Numbered(k) && path == WanAt(i, j, k);
  }

  lemma NumberedWanPath(i: nat, j: nat, k: nat)
    requires Numbered(i) && Numbered(j) && Numbered(k)
    ensures WanPath(WanAt(i, j, k))
  {
    hide Instance, Join, Decimal, Split;
    NumberedInstance(i);
    NumberedInstance(j);
    NumberedInstance(k);
    SplitIs(WanAt(i, j, k), ["InternetGatewayDevice", "WANDevice", Decimal(i), "WANConnectionDevice", Decimal(j),
                             "WANPPPConnection", Decimal(k), ""], '.');
  }

  /** A WAN path is that of some numbered PPP connection. */
  lemma WanPathExactly(path: string)
    ensures WanPath(path) <==>
      exists i, j, k :: Numbered(i) && Numbered(j) && Numbered(k) && path == WanAt(i, j, k)
  {
    hide WanPath, WanAt;
    if WanPath(path) { WanPathNumbered(path); }
    if i, j, k :| Numbered(i) && Numbered(j) && Numbered(k) && path == WanAt(i, j, k) { NumberedWanPath(i, j, k); }
  }

  /** An optical path is that of some numbered WAN device. */
  lemma OpticalPathExactly(path: string)
    ensures OpticalPath(path) <==> exists i :: Numbered(i) && path == OpticalAt(i)
  {
    hide Instance;
    if OpticalPath(path) {
      var p := Split(path, '.');
      InstanceExactly(p[2]);
      var i: nat :| 1 <= i <= 9999 && p[2] == Decimal(i);
      JoinSplit(path, '.');
      assert p == ["InternetGatewayDevice", "WANDevice", p[2], "X_GponInterafceConfig", ""];
      assert Numbered(i) && path == OpticalAt(i);
    }
    if i :| Numbered(i) && path == OpticalAt(i) {
      NumberedInstance(i);
      SplitIs(path, ["InternetGatewayDevice", "WANDevice", Decimal(i), "X_GponInterafceConfig", ""], '.');
    }
  }

  // ----- Field names -----

  lemma Ipv6Exactly(relative: string)
    ensures Ipv6Name(relative) <==> exists k :: Numbered(k) && relative == AddressAt(k)
  {
    hide Instance;
    if Ipv6Name(relative) {
      var p := Split(relative, '.');
      InstanceExactly(p[2]);
      var k: nat :| 1 <= k <= 9999 && p[2] == Decimal(k);
      JoinSplit(relative, '.');
      assert p == ["X_HW_IPv6", "IPv6Address", p[2], "IPAddress"];
      assert Numbered(k) && relative == AddressAt(k);
    }
    if k :| Numbered(k) && relative == AddressAt(k) {
      NumberedInstance(k);
      SplitIs(relative, ["X_HW_IPv6", "IPv6Address", Decimal(k), "IPAddress"], '.');
    }
  }

  lemma UnderPath(path: string, n: string, relative: string)
    ensures StartsWith(n, path) && n[|path|..] == relative <==> n == path + relative
  {
    if StartsWith(n, path) { assert n == n[..|path|] + n[|path|..]; }
  }

  /** The name of an address is none of the others. */
  lemma AddressesApart(relative: string)
    requires Ipv6Name(relative)
    ensures |relative| > 5 && relative[0] == 'X' && relative[5] == 'I'
  {
    Ipv6Exactly(relative);
    var k :| Numbered(k) && relative == AddressAt(k);
    var parts := ["X_HW_IPv6", "IPv6Address", Decimal(k), "IPAddress"];
    assert relative == parts[0] + "." + Join(parts[1..], '.');
  }

  /** The name that a device gives to a field under its path; the numbered addresses are all the one list of IPv6
      addresses. */
  ghost predicate NamedBy(path: string, n: string, field: TelemetryName) {
    match field
    case RxPower => n == path + "RXPower"
    case TxPower => n == path + "TXPower"
    case Ipv4 => n == path + "ExternalIPAddress"
    case Mac => n == path + "MACAddress"
    case Dns => n == path + "DNSServers"
    case ConnectionStatus => n == path + "ConnectionStatus"
    case ServiceList => n == path + "X_HW_SERVICELIST"
    case TransportType => n == path + "TransportType"
    case Ipv6 => exists k :: Numbered(k) && n == path + AddressAt(k)
  }

  lemma SameRelative(path: string, n: string, scope: Scope, field: TelemetryName)
    requires Measured(scope) && StartsWith(n, path)
    requires Ipv6Name(n[|path|..]) ==> |n| > |path| + 5 && n[|path|] == 'X' && n[|path| + 5] == 'I'
    requires Ipv6Name(n[|path|..]) <==> exists k :: Numbered(k) && n == path + AddressAt(k)
    ensures FieldName(path, n, scope) == Some(field) <==>
      NamedBy(path, n, field) && (scope.Optical? <==> field.RxPower? || field.TxPower?)
  {
    hide Ipv6Name, AddressAt;
    var relative := n[|path|..];
    assert n == path + relative;
    UnderPath(path, n, "RXPower");
    UnderPath(path, n, "TXPower");
    UnderPath(path, n, "ExternalIPAddress");
    UnderPath(path, n, "MACAddress");
    UnderPath(path, n, "DNSServers");
    UnderPath(path, n, "ConnectionStatus");
    UnderPath(path, n, "X_HW_SERVICELIST");
    UnderPath(path, n, "TransportType");
  }

  lemma NotUnder(path: string, n: string, field: TelemetryName)
    requires !StartsWith(n, path)
    ensures !NamedBy(path, n, field)
  {
    hide AddressAt;
  }

  /** Under a path, a name is a field exactly when it is that field's own name: the two powers under an optical path,
      the seven others under a WAN path. */
  lemma FieldNamesExactly(path: string, n: string, scope: Scope, field: TelemetryName)
    requires Measured(scope)
    ensures FieldName(path, n, scope) == Some(field) <==>
      NamedBy(path, n, field) && (scope.Optical? <==> field.RxPower? || field.TxPower?)
  {
    hide Ipv6Name, AddressAt;
    if StartsWith(n, path) {
      var relative := n[|path|..];
      assert n == path + relative;
      Ipv6Exactly(relative);
      if Ipv6Name(relative) { AddressesApart(relative); }
      assert forall k :: n == path + AddressAt(k) <==> relative == AddressAt(k) by {
        forall k ensures n == path + AddressAt(k) <==> relative == AddressAt(k) { UnderPath(path, n, AddressAt(k)); }
      }
      SameRelative(path, n, scope, field);
    } else {
      NotUnder(path, n, field);
    }
  }

  // ----- Names directly below a path -----

  /** One more segment below the path, and perhaps dots after it. */
  ghost predicate BelowPath(path: string, n: string) {
    exists segment: string, dots: string ::
      n == path + segment + dots && '.' !in segment && forall c | c in dots :: c == '.'
  }

  lemma {:induction false} StripDots(segment: string, dots: string)
    requires '.' !in segment && forall c | c in dots :: c == '.'
    ensures StripRight(segment + dots, Dot) == segment
  {
    var s := segment + dots;
    if dots != "" {
      var front := dots[..|dots| - 1];
      assert dots == front + [dots[|dots| - 1]] && dots[|dots| - 1] in dots;
      assert s[..|s| - 1] == segment + front && s[|s| - 1] == '.';
      assert forall c | c in front :: c in dots;
      StripDots(segment, front);
    } else {
      assert s == segment;
    }
  }

  lemma BelowExactly(path: string, n: string)
    ensures StartsWith(n, path) && '.' !in StripRight(n[|path|..], Dot) <==> BelowPath(path, n)
  {
    if BelowPath(path, n) {
      var segment, dots :| n == path + segment + dots && '.' !in segment && forall c | c in dots :: c == '.';
      assert n == path + (segment + dots);
      StripDots(segment, dots);
    }
    if StartsWith(n, path) && '.' !in StripRight(n[|path|..], Dot) {
      var rest := n[|path|..];
      StripRightShape(rest, Dot);
      var segment := StripRight(rest, Dot);
      var dots := rest[|segment|..];
      assert rest == segment + dots && n == path + rest;
      assert n == path + segment + dots;
    }
  }

  /** The test that a reported name passes: directly below the path, not the path itself, and a concrete object, or the
      leaf of one. */
  lemma ReportedExactly(path: string, n: string)
    ensures ReportedUnder(path, n) <==>
      n != path && BelowPath(path, n) && (Concrete(n) || (!IsObjectName(n) && Concrete(n + ".")))
  {
    hide Concrete;
    BelowExactly(path, n);
    ConcreteEnds(n);
  }

  lemma ConcreteEnds(n: string)
    ensures Concrete(n) ==> IsObjectName(n)
  {
    SplitLast(n, '.');
    assert Split("", '.') == [""];
  }

  /** One to 64 letters, digits, underscores and hyphens, no hyphen first. */
  predicate Name(t: string) {
    1 <= |t| <= 64 && t[0] != '-'
    && forall c | c in t :: 'a' <= c <= 'z' || 'A' <= c <= 'Z' || '0' <= c <= '9' || c in "_-"
  }

  /** A path from one of the two roots. */
  function From(root: string, segments: seq<string>): string { Dotted([root] + segments + [""]) }

  /** A concrete object is one of the two roots with at most sixteen names below it, each closed by a dot. */
  lemma ConcreteExactly(s: string)
    ensures Concrete(s) <==>
      exists root, segments: seq<string> ::
        && s == From(root, segments) && root in {"InternetGatewayDevice", "Device"} && |segments| <= 16
        && forall t | t in segments :: Name(t)
  {
    hide Split;
    if root, segments: seq<string> :|
      s == From(root, segments) && root in {"InternetGatewayDevice", "Device"} && |segments| <= 16
      && forall t | t in segments :: Name(t)
    {
      var parts := [root] + segments + [""];
      forall p | p in parts ensures '.' !in p { RootHasNoDot(root); }
      SplitIs(s, parts, '.');
      forall i | 1 <= i < |parts| - 1 ensures Segment(parts[i]) {
        assert parts[i] == segments[i - 1] && segments[i - 1] in segments;
        NamesAreSegments(parts[i]);
      }
    }
    if Concrete(s) {
      var parts := Split(s, '.');
      JoinSplit(s, '.');
      var segments := parts[1..|parts| - 1];
      assert parts == [parts[0]] + segments + [""];
      forall t | t in segments ensures Name(t) {
        var i :| 0 <= i < |segments| && segments[i] == t;
        assert Segment(parts[i + 1]);
        NamesAreSegments(t);
      }
      assert s == From(parts[0], segments);
    }
  }

  lemma NamesAreSegments(t: string)
    ensures Name(t) <==> Segment(t)
  {
    assert t != "" ==> t[0] in t;
  }

  lemma RootHasNoDot(root: string)
    ensures root in {"InternetGatewayDevice", "Device"} ==> '.' !in root
  {}

  // ----- The last segment of a name -----

  /** The name ends in that segment. */
  predicate EndsIn(n: string, segment: string) {
    n == segment || (|n| > |segment| && n[|n| - |segment|..] == segment && n[|n| - |segment| - 1] == '.')
  }

  lemma LastPart(n: string, segment: string)
    requires '.' !in segment
    ensures Split(n, '.')[|Split(n, '.')| - 1] == segment <==> EndsIn(n, segment)
  {
    SplitNone(segment, '.');
    if |n| > |segment| && n[|n| - |segment|..] == segment && n[|n| - |segment| - 1] == '.' {
      var front := n[..|n| - |segment| - 1];
      assert n == front + ['.'] + segment;
      SplitConcat(front, segment, '.');
    }
    if Split(n, '.')[|Split(n, '.')| - 1] == segment {
      JoinSplit(n, '.');
      EndOfJoin(Split(n, '.'));
    }
  }

  lemma {:induction false} EndOfJoin(parts: seq<string>)
    requires parts != []
    ensures EndsIn(Join(parts, '.'), parts[|parts| - 1])
  {
    if |parts| > 1 {
      EndOfJoin(parts[1..]);
      var rest, last := Join(parts[1..], '.'), parts[|parts| - 1];
      var whole := parts[0] + ['.'] + rest;
      assert Join(parts, '.') == whole;
      assert whole[|whole| - |last|..] == rest[|rest| - |last|..];
      if rest == last { assert whole[|whole| - |last| - 1] == '.'; }
      else { assert whole[|whole| - |last| - 1] == rest[|rest| - |last| - 1]; }
    }
  }
}
