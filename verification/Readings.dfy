/** What a telemetry value is read as: the number a power text denotes, and the labels that the other fields accept. */
module Readings {
  import opened Text
  import opened Numbers
  import opened Domain
  import opened Policies
  import opened Telemetry
  import opened FieldNames

  // ----- Numbers with sign and leading zeros -----

  function Zeros(n: nat): string { seq(n, _ => '0') }

  /** The text writes the number: an optional sign, leading zeros, and its decimal digits. */
  ghost predicate Denotes(raw: string, v: int) {
    exists sign: string, m: nat ::
      sign in {"", "+", "-"} && raw == sign + Zeros(m) + Decimal(if v < 0 then -v else v)
      && (v < 0 ==> sign == "-") && (v > 0 ==> sign != "-")
  }

  lemma {:induction false} LeadingZero(s: string)
    requires Digits(s)
    ensures Digits("0" + s) && NatValue("0" + s) == NatValue(s)
  {
    var t, n := "0" + s, |s| - 1;
    assert t[..|t| - 1] == "0" + s[..n];
    if n == 0 {
      assert "0" + s[..0] == "0" && NatValue("0") == NatValue("0"[..0]) * 10 && "0"[..0] == "" && s[..0] == "";
    } else {
      LeadingZero(s[..n]);
    }
  }

  lemma {:induction false} LeadingZeros(m: nat, s: string)
    requires Digits(s)
    ensures Digits(Zeros(m) + s) && NatValue(Zeros(m) + s) == NatValue(s)
  {
    if m == 0 {
      assert Zeros(0) + s == s;
    } else {
      LeadingZeros(m - 1, s);
      LeadingZero(Zeros(m - 1) + s);
      assert Zeros(m) + s == "0" + (Zeros(m - 1) + s);
    }
  }

  /** Digits are leading zeros and the digits of their number. */
  lemma {:induction false} DigitsAre(s: string) returns (m: nat)
    requires Digits(s)
    ensures s == Zeros(m) + Decimal(NatValue(s))
  {
    if s[0] != '0' {
      WrittenBack(s);
      m := 0;
      assert Zeros(0) + s == s;
    } else if |s| == 1 {
      m := 0;
      assert s == "0" && s[..0] == "" && NatValue("") == 0 && Decimal(0) == ['0'];
      assert Zeros(0) + s == s;
    } else {
      var k := DigitsAre(s[1..]);
      LeadingZero(s[1..]);
      assert s == "0" + s[1..];
      m := k + 1;
      assert "0" + Zeros(k) == Zeros(k + 1);
    }
  }

  lemma ZerosDigits(m: nat, n: nat)
    ensures var body := Zeros(m) + Decimal(n); body != "" && Digits(body) && NatValue(body) == n && Digit(body[0])
  {
    hide Decimal;
    LeadingZeros(m, Decimal(n));
    DecimalValue(n);
  }

  lemma SignedBody(sign: string, body: string)
    requires sign in {"", "+", "-"} && Digits(body)
    ensures Unsigned(sign + body) == body && ((sign + body)[0] == '-' <==> sign == "-")
  {
    assert Digit(body[0]);
  }

  lemma DenotedValue(raw: string, v: int)
    requires Denotes(raw, v)
    ensures Digits(Unsigned(raw)) && SignedValue(raw) == v
  {
    hide Digits, Unsigned, Decimal, NatValue, Zeros;
    var sign, m :| sign in {"", "+", "-"} && raw == sign + Zeros(m) + Decimal(if v < 0 then -v else v)
                   && (v < 0 ==> sign == "-") && (v > 0 ==> sign != "-");
    var body := Zeros(m) + Decimal(if v < 0 then -v else v);
    ZerosDigits(m, if v < 0 then -v else v);
    SignedBody(sign, body);
    assert raw == sign + body;
  }

  lemma ValueDenoted(raw: string)
    requires Digits(Unsigned(raw))
    ensures Denotes(raw, SignedValue(raw))
  {
    hide Decimal, NatValue, Zeros;
    var body, v := Unsigned(raw), SignedValue(raw);
    var m := DigitsAre(body);
    var sign := if raw != body then [raw[0]] else "";
    assert Digit(body[0]);
    assert raw == sign + body;
    assert raw == sign + Zeros(m) + Decimal(NatValue(body));
    assert NatValue(body) == if v < 0 then -v else v;
  }

  /** A signed text of digits denotes its value and no other number. */
  lemma SignedDenotes(raw: string, v: int)
    ensures Denotes(raw, v) <==> Digits(Unsigned(raw)) && SignedValue(raw) == v
  {
    hide Denotes, SignedValue;
    if Denotes(raw, v) { DenotedValue(raw, v); }
    if Digits(Unsigned(raw)) { ValueDenoted(raw); }
  }

  // ----- Powers -----

  /** A power is valid exactly when it is typed as a number, comes from a reviewed profile and its text denotes, in at
      most ten digits, an integer of -80 to 20: that many dBm. */
  lemma PowerRead(lib: Lib, name: TelemetryName, q: Parameter, profileId: string, v: int)
    requires name.RxPower? || name.TxPower?
    ensures var o, raw := Observe(lib, name, q, profileId), Strip(q.value);
            && (o.state.Valid? && o.value == Some(Number(v)) <==>
                  q.xsdType == "xsd:int" && profileId in {X6_PROFILE, V5_PROFILE} && Denotes(raw, v)
                  && |Unsigned(raw)| <= 10 && -80 <= v <= 20)
            && (o.state.Valid? ==> o.dBm && o.value == Some(Number(SignedValue(raw))))
            && (o.reason == Some(OutOfRange) ==> exists w :: Denotes(raw, w) && !(-80 <= w <= 20))
  {
    hide Strip, Denotes;
    var raw := Strip(q.value);
    SignedDenotes(raw, v);
    if Digits(Unsigned(raw)) {
      SignedDenotes(raw, SignedValue(raw));
      NoDot(Unsigned(raw));
    }
  }

  lemma NoDot(s: string)
    requires Digits(s)
    ensures Split(s, '.') == [s]
  {
    DigitsHoldNo(s, '.');
    SplitNone(s, '.');
  }

  // ----- Addresses and labels -----

  /** A text field is read from a string of at most 1024 characters that says something. */
  predicate Spoken(q: Parameter) { q.xsdType == "xsd:string" && 1 <= |Strip(q.value)| <= 1024 }

  predicate Usable(lib: Lib, text: string) {
    lib.parse(text).Some? && !lib.parse(text).value.unspecified && !lib.parse(text).value.multicast
  }

  /** An address is valid exactly when it is one of its version, neither unspecified nor multicast and without a
      zone. */
  lemma AddressRead(lib: Lib, name: TelemetryName, q: Parameter, profileId: string, t: string)
    requires name.Ipv4? || name.Ipv6?
    ensures var o, raw := Observe(lib, name, q, profileId), Strip(q.value);
            o.state.Valid? && o.value == Some(Labels([t])) <==>
              && Spoken(q) && raw != (if name.Ipv4? then "0.0.0.0" else "::") && '%' !in raw && Usable(lib, raw)
              && lib.parse(raw).value.v4 == name.Ipv4? && lib.parse(raw).value.text == t
  {
    hide Strip;
  }

  /** Six pairs of hexadecimal digits between colons or hyphens: a single device's address, and not all zeros. */
  predicate SingleMac(raw: string) {
    && |raw| == 17
    && (forall i | 0 <= i < 17 ::
          if i % 3 == 2 then raw[i] in ":-" else raw[i] in "0123456789abcdefABCDEF")
    && raw[1] in "02468aceACE" && exists i :: 0 <= i < 17 && raw[i] !in ":-0"
  }

  /** The same address in lower case between colons. */
  predicate SameMac(raw: string, m: string) {
    |m| == |raw| && forall i | 0 <= i < |raw| ::
      m[i] == if i % 3 == 2 then ':' else if 'A' <= raw[i] <= 'F' then (raw[i] as int + 32) as char else raw[i]
  }

  lemma LowerHex(c: char)
    ensures HexDigit(Lower(c)) <==> c in "0123456789abcdefABCDEF"
    ensures Lower(c) in "02468ace" <==> c in "02468aceACE"
    ensures c in "0123456789abcdefABCDEF" ==> Lower(c) == if 'A' <= c <= 'F' then (c as int + 32) as char else c
    ensures c != '-' ==> (Lower(c) == ':' <==> c == ':') && (Lower(c) == '0' <==> c == '0')
  {}

  lemma MacChars(raw: string)
    ensures var m := MacText(raw);
            |m| == |raw| && forall i | 0 <= i < |raw| ::
              && (HexDigit(m[i]) <==> raw[i] in "0123456789abcdefABCDEF")
              && (m[i] == ':' <==> raw[i] in ":-")
              && (m[i] == '0' <==> raw[i] == '0')
              && (m[i] in "02468ace" <==> raw[i] in "02468aceACE")
              && (HexDigit(m[i]) ==> m[i] == if 'A' <= raw[i] <= 'F' then (raw[i] as int + 32) as char else raw[i])
  {
    forall i | 0 <= i < |raw|
      ensures && (HexDigit(MacText(raw)[i]) <==> raw[i] in "0123456789abcdefABCDEF")
              && (MacText(raw)[i] in "02468ace" <==> raw[i] in "02468aceACE")
    {
      LowerHex(raw[i]);
    }
    forall i | 0 <= i < |raw| && HexDigit(MacText(raw)[i])
      ensures MacText(raw)[i] == if 'A' <= raw[i] <= 'F' then (raw[i] as int + 32) as char else raw[i]
    {
      LowerHex(raw[i]);
    }
  }

  lemma MacUnicast(raw: string)
    ensures UnicastMac(MacText(raw)) <==> SingleMac(raw)
    ensures SingleMac(raw) ==> SameMac(raw, MacText(raw))
  {
    hide MacText, HexDigit;
    var m := MacText(raw);
    MacChars(raw);
    if |raw| == 17 && (forall i | 0 <= i < 17 :: if i % 3 == 2 then m[i] == ':' else HexDigit(m[i])) {
      ZeroMac(m);
    }
  }

  lemma ZeroMac(m: string)
    requires |m| == 17 && forall i | 0 <= i < 17 && i % 3 == 2 :: m[i] == ':'
    ensures m == "00:00:00:00:00:00" <==> forall i | 0 <= i < 17 && i % 3 != 2 :: m[i] == '0'
  {
    var z := "00:00:00:00:00:00";
    if forall i | 0 <= i < 17 && i % 3 != 2 :: m[i] == '0' {
      forall i | 0 <= i < 17 ensures m[i] == z[i] {}
      assert m == z;
    }
  }

  /** A MAC address is valid exactly when it is that of a single device; it is kept in lower case between colons. */
  lemma MacRead(lib: Lib, q: Parameter, profileId: string)
    ensures var o := Observe(lib, Mac, q, profileId);
            && (o.state.Valid? <==> Spoken(q) && SingleMac(Strip(q.value)))
            && (o.state.Valid? ==> o.value.Some? && o.value.value.Label? && SameMac(Strip(q.value), o.value.value.text))
  {
    hide Strip, MacText, UnicastMac, SingleMac, SameMac;
    MacUnicast(Strip(q.value));
  }

  /** Some words of the list of services. */
  ghost predicate Listed(words: seq<string>) {
    words != [] && forall w | w in words :: w in {"INTERNET", "TR069", "VOIP", "IPTV", "OTHER"}
  }

  lemma StatusWord(word: string)
    requires word in STATUSES
    ensures ',' !in word && Spelled(word)
  {}

  lemma OtherWord(word: string)
    requires word in SERVICES || word in {"PPPoE", "TR069_INTERNET"}
    ensures ',' !in word && Spelled(word)
  {}

  lemma WordsHoldNoComma(word: string)
    ensures word in STATUSES || word in SERVICES || word in {"PPPoE", "TR069_INTERNET"} ==>
            Spelled(word) && Split(word, ',') == [word]
  {
    hide Spelled;
    if word in STATUSES || word in SERVICES || word in {"PPPoE", "TR069_INTERNET"} {
      if word in STATUSES { StatusWord(word); } else { OtherWord(word); }
      SplitNone(word, ',');
    }
  }

  predicate Spelled(word: string) { word != "" && |word| <= 1024 }

  lemma OnePart(raw: string)
    ensures |Split(raw, ',')| == 1 ==> Split(raw, ',') == [raw]
  {
    JoinSplit(raw, ',');
  }

  /** The connection status is one of seven words and the transport is PPPoE, as they stand. */
  lemma WordRead(lib: Lib, name: TelemetryName, q: Parameter, profileId: string)
    requires name.ConnectionStatus? || name.TransportType?
    ensures var o, raw := Observe(lib, name, q, profileId), Strip(q.value);
            && (o.state.Valid? <==>
                  && q.xsdType == "xsd:string"
                  && raw in if name.TransportType? then {"PPPoE"}
                         else {"Unconfigured", "Connecting", "Authenticating", "Connected", "PendingDisconnect",
                               "Disconnecting", "Disconnected"})
            && (o.state.Valid? ==> o.value == Some(Label(raw)))
  {
    hide Strip, Split;
    WordsHoldNoComma(Strip(q.value));
    OnePart(Strip(q.value));
  }

  /** The services are words of a fixed list between commas, kept in their order; one profile's combined word counts as
      two. */
  lemma ServicesRead(lib: Lib, q: Parameter, profileId: string, words: seq<string>)
    requires Listed(words)
    ensures var o, raw := Observe(lib, ServiceList, q, profileId), Strip(q.value);
            o.state.Valid? && o.value == Some(Labels(words)) <==>
              Spoken(q) && (raw == Join(words, ',')
                            || (profileId == X6_PROFILE && raw == "TR069_INTERNET" && words == ["TR069", "INTERNET"]))
  {
    hide Strip, Split, Join;
    var raw := Strip(q.value);
    WordsHoldNoComma("TR069_INTERNET");
    forall w | w in words ensures ',' !in w { OtherWord(w); }
    SplitIs(raw, words, ',');
    assert words[0] in words && words[0] != "TR069_INTERNET";
  }

  lemma ServicesListed(lib: Lib, q: Parameter, profileId: string)
    ensures var o := Observe(lib, ServiceList, q, profileId);
            o.state.Valid? ==> o.value.Some? && o.value.value.Labels? && Listed(o.value.value.texts)
  {
    hide Strip, Split;
  }

  // ----- Lists of addresses -----

  ghost predicate Gives(lib: Lib, parts: seq<string>, t: string) {
    exists p :: p in parts && Usable(lib, Strip(p)) && lib.parse(Strip(p)).value.text == t
  }

  ghost predicate GivenBefore(lib: Lib, parts: seq<string>, s: string, t: string) {
    exists n :: 0 <= n <= |parts| && Gives(lib, parts[..n], s) && !Gives(lib, parts[..n], t)
  }

  ghost predicate AllUsable(lib: Lib, parts: seq<string>) { forall p | p in parts :: Usable(lib, Strip(p)) }

  /** Each address of the parts once, in the order in which it is first given. */
  ghost predicate FirstGiven(lib: Lib, parts: seq<string>, texts: seq<string>) {
    && (forall t :: t in texts <==> Gives(lib, parts, t))
    && forall i, j | 0 <= i < j < |texts| :: GivenBefore(lib, parts, texts[i], texts[j])
  }

  lemma GivenLonger(lib: Lib, parts: seq<string>, s: string, t: string)
    requires parts != [] && GivenBefore(lib, parts[..|parts| - 1], s, t)
    ensures GivenBefore(lib, parts, s, t)
  {
    hide Gives;
    var front := parts[..|parts| - 1];
    var n :| 0 <= n <= |front| && Gives(lib, front[..n], s) && !Gives(lib, front[..n], t);
    assert front[..n] == parts[..n];
  }

  lemma GivesOneMore(lib: Lib, parts: seq<string>, t: string)
    requires parts != [] && Usable(lib, Strip(parts[|parts| - 1]))
    ensures Gives(lib, parts, t) <==>
      Gives(lib, parts[..|parts| - 1], t) || lib.parse(Strip(parts[|parts| - 1])).value.text == t
  {
    hide Strip, Usable;
    assert parts == parts[..|parts| - 1] + [parts[|parts| - 1]];
  }

  lemma {:induction false} TextsGiven(lib: Lib, parts: seq<string>)
    ensures DnsTexts(lib, parts).Some? <==> AllUsable(lib, parts)
    ensures DnsTexts(lib, parts).Some? ==> FirstGiven(lib, parts, DnsTexts(lib, parts).value)
  {
    hide Strip, FirstGiven;
    if parts == [] {
      NoneGiven(lib);
    } else {
      var front, part := parts[..|parts| - 1], parts[|parts| - 1];
      assert parts == front + [part];
      TextsGiven(lib, front);
      if DnsTexts(lib, parts).Some? {
        OneMoreGiven(lib, parts, DnsTexts(lib, front).value, DnsTexts(lib, parts).value);
      }
    }
  }

  lemma NoneGiven(lib: Lib)
    ensures FirstGiven(lib, [], [])
  {}

  lemma OneMoreGiven(lib: Lib, parts: seq<string>, before: seq<string>, texts: seq<string>)
    requires parts != [] && Usable(lib, Strip(parts[|parts| - 1])) && FirstGiven(lib, parts[..|parts| - 1], before)
    requires var t := lib.parse(Strip(parts[|parts| - 1])).value.text;
             texts == if t in before then before else before + [t]
    ensures FirstGiven(lib, parts, texts)
  {
    hide Strip, Usable, Gives, GivenBefore;
    var front := parts[..|parts| - 1];
    forall t ensures t in texts <==> Gives(lib, parts, t) { GivesOneMore(lib, parts, t); }
    forall i, j | 0 <= i < j < |texts| ensures GivenBefore(lib, parts, texts[i], texts[j]) {
      if j < |before| {
        GivenLonger(lib, parts, before[i], before[j]);
      } else {
        assert Gives(lib, front, before[i]) && !Gives(lib, front, texts[j]);
        NewlyGiven(lib, parts, before[i], texts[j]);
      }
    }
  }

  lemma NewlyGiven(lib: Lib, parts: seq<string>, s: string, t: string)
    requires parts != [] && Gives(lib, parts[..|parts| - 1], s) && !Gives(lib, parts[..|parts| - 1], t)
    ensures GivenBefore(lib, parts, s, t)
  {
    hide Gives;
  }

  /** A list of servers is valid exactly when it is at most eight usable addresses between commas, none with a zone; it
      is read as these addresses, each once, in the order in which they are first given. */
  lemma ServersRead(lib: Lib, q: Parameter, profileId: string)
    ensures var o, raw := Observe(lib, Dns, q, profileId), Strip(q.value);
            && (o.state.Valid? <==>
                  Spoken(q) && '%' !in raw && |Split(raw, ',')| <= 8 && AllUsable(lib, Split(raw, ',')))
            && (o.state.Valid? ==>
                  o.value.Some? && o.value.value.Labels? && FirstGiven(lib, Split(raw, ','), o.value.value.texts))
  {
    hide Strip, Split, AllUsable, FirstGiven, DnsTexts;
    TextsGiven(lib, Split(Strip(q.value), ','));
  }

  // ----- Why a value is not valid -----

  /** An optional sign, one to ten digits, and perhaps a point with one to four digits. */
  ghost predicate Numeral(raw: string) {
    exists sign: string, whole: string, fraction: string ::
      && raw == sign + whole + fraction && sign in {"", "+", "-"} && Digits(whole) && |whole| <= 10
      && (fraction == "" || (fraction[0] == '.' && Digits(fraction[1..]) && |fraction| <= 5))
  }

  lemma PointSplits(whole: string, rest: string)
    requires '.' !in whole && '.' !in rest
    ensures Split(whole + ['.'] + rest, '.') == [whole, rest]
  {
    SplitNone(rest, '.');
    SplitPrefix(whole, rest, '.');
  }

  lemma NumeralSplits(whole: string, fraction: string)
    requires Digits(whole) && (fraction == "" || (fraction[0] == '.' && Digits(fraction[1..])))
    ensures Split(whole + fraction, '.') == if fraction == "" then [whole] else [whole, fraction[1..]]
  {
    hide Split, Digits;
    assert !Digit('.');
    DigitsHoldNo(whole, '.');
    if fraction == "" {
      SplitNone(whole, '.');
      assert whole + fraction == whole;
    } else {
      DigitsHoldNo(fraction[1..], '.');
      PointSplits(whole, fraction[1..]);
      assert whole + fraction == whole + ['.'] + fraction[1..];
    }
  }

  lemma UnsignedBody(sign: string, whole: string, fraction: string)
    requires sign in {"", "+", "-"} && Digits(whole)
    ensures Unsigned(sign + whole + fraction) == whole + fraction
  {
    assert Digit(whole[0]);
    assert sign + whole + fraction == sign + (whole + fraction);
  }

  lemma NumeralExactly(raw: string)
    ensures DecimalText(raw) <==> Numeral(raw)
  {
    hide Split;
    if Numeral(raw) {
      var sign, whole, fraction :|
        && raw == sign + whole + fraction && sign in {"", "+", "-"} && Digits(whole) && |whole| <= 10
        && (fraction == "" || (fraction[0] == '.' && Digits(fraction[1..]) && |fraction| <= 5));
      UnsignedBody(sign, whole, fraction);
      NumeralSplits(whole, fraction);
    }
    if DecimalText(raw) { DecimalParts(raw); }
  }

  lemma DecimalParts(raw: string)
    requires DecimalText(raw)
    ensures Numeral(raw)
  {
    var body := Unsigned(raw);
    var p := Split(body, '.');
    JoinSplit(body, '.');
    var sign, fraction := if raw != body then [raw[0]] else "", if |p| == 2 then ['.'] + p[1] else "";
    assert |p| == 2 ==> p[1..] == [p[1]];
    assert body == p[0] + fraction;
    assert raw == sign + body;
    assert raw == sign + p[0] + fraction;
  }

  /** A value is unavailable exactly when it says nothing. */
  lemma EmptyRead(lib: Lib, name: TelemetryName, q: Parameter, profileId: string)
    ensures var o, raw := Observe(lib, name, q, profileId), Strip(q.value);
            && (o.state.Unavailable? <==> raw == "" || (name.Ipv4? && raw == "0.0.0.0") || (name.Ipv6? && raw == "::"))
            && (o.reason == Some(Empty) <==> o.state.Unavailable?) && (o.state.Valid? <==> o.reason.None?)
            && (o.state.Unverified? <==> o.reason == Some(UnverifiedUnit))
  {
    hide Strip, Split, DnsTexts, MacText, UnicastMac, DecimalText, Integer, SignedValue;
  }

  /** A power that is not valid: not a number, or not of a numeric type; a number whose unit is not known, because the
      profile is not reviewed or the number is not typed as a whole one; or a whole one out of range. */
  lemma PowerFails(lib: Lib, name: TelemetryName, q: Parameter, profileId: string)
    requires (name.RxPower? || name.TxPower?) && Strip(q.value) != ""
    ensures var o, raw := Observe(lib, name, q, profileId), Strip(q.value);
            var typed := q.xsdType in {"xsd:int", "xsd:unsignedInt", "xsd:string"};
            var known := q.xsdType == "xsd:int" && profileId in {X6_PROFILE, V5_PROFILE} && '.' !in raw;
            && (o.reason == Some(InvalidNumber) <==> !(typed && Numeral(raw)))
            && (o.reason == Some(UnverifiedUnit) <==> typed && Numeral(raw) && !known)
            && (o.reason == Some(OutOfRange) <==>
                  known && Numeral(raw) && exists v :: Denotes(raw, v) && !(-80 <= v <= 20))
  {
    hide Strip, Denotes, SignedValue, Split;
    var raw := Strip(q.value);
    NumeralExactly(raw);
    if DecimalText(raw) { WholeExactly(raw); }
    if Digits(Unsigned(raw)) {
      forall v ensures Denotes(raw, v) <==> SignedValue(raw) == v { SignedDenotes(raw, v); }
      assert Denotes(raw, SignedValue(raw));
    }
  }

  /** A numeral is whole exactly when it has no point. */
  lemma WholeExactly(raw: string)
    requires DecimalText(raw)
    ensures Integer(raw) <==> '.' !in raw
  {
    var sign, whole, fraction := Parts(raw);
    if fraction == "" {
      DigitsHoldNo(whole, '.');
      assert raw == sign + whole;
    } else {
      assert raw[|sign| + |whole|] == '.';
      assert Unsigned(raw)[|whole|] == '.' && !Digit('.') && Unsigned(raw)[|whole|] in Unsigned(raw);
    }
  }

  lemma Parts(raw: string) returns (sign: string, whole: string, fraction: string)
    requires DecimalText(raw)
    ensures raw == sign + whole + fraction && sign in {"", "+", "-"} && Digits(whole) && |whole| <= 10
            && (fraction == "" || fraction[0] == '.') && Unsigned(raw) == whole + fraction
  {
    hide Split;
    DecimalParts(raw);
    sign, whole, fraction :|
      && raw == sign + whole + fraction && sign in {"", "+", "-"} && Digits(whole) && |whole| <= 10
      && (fraction == "" || (fraction[0] == '.' && Digits(fraction[1..]) && |fraction| <= 5));
    UnsignedBody(sign, whole, fraction);
  }

  /** Any other field that is not valid: not a string or too long, or else wrong in the way of its kind. */
  lemma TextFails(lib: Lib, name: TelemetryName, q: Parameter, profileId: string)
    requires !name.RxPower? && !name.TxPower? && Observe(lib, name, q, profileId).state.Invalid?
    ensures Observe(lib, name, q, profileId).reason ==
      Some(if !Spoken(q) then InvalidType else if name.Ipv4? || name.Ipv6? then InvalidIp
           else if name.Dns? then InvalidDns else if name.Mac? then InvalidMac else InvalidType)
  {
    hide Strip, Split, DnsTexts, MacText, UnicastMac;
  }
}
