/** Numbers as text: decimal and hexadecimal digits, read and written. */
module Numbers {

  predicate Digit(c: char) { '0' <= c <= '9' }

  predicate Digits(s: string) { s != "" && forall c | c in s :: Digit(c) }

  /** The number that a string of digits stands for. */
  function NatValue(s: string): nat
    requires forall c | c in s :: Digit(c)
  {
    if s == "" then 0
    else
      assert Digit(s[|s| - 1]);
      10 * NatValue(s[..|s| - 1]) + (s[|s| - 1] as int - '0' as int)
  }

  function Unsigned(raw: string): string {
    if raw != "" && (raw[0] == '+' || raw[0] == '-') then raw[1..] else raw
  }

  /** The number that digits after an optional sign stand for. */
  function SignedValue(raw: string): int
    requires Digits(Unsigned(raw))
  {
    var n: int := NatValue(Unsigned(raw));
    if raw[0] == '-' then -n else n
  }

  function DigitChar(d: nat): char
    requires d < 16
  {
    if d < 10 then ('0' as int + d) as char else ('a' as int + d - 10) as char
  }

  predicate HexDigit(c: char) { Digit(c) || 'a' <= c <= 'f' }

  /** A number without leading zeros, in decimal or else in hexadecimal. */
  function InBase(n: nat, hex: bool): (s: string)
    ensures s != "" && forall c | c in s :: if hex then HexDigit(c) else Digit(c)
  {
    var base := if hex then 16 else 10;
    if n < base then [DigitChar(n)] else InBase(n / base, hex) + [DigitChar(n % base)]
  }

  function Decimal(n: nat): (s: string)
    ensures Digits(s)
  {
    InBase(n, false)
  }

  /** Reading what was written gives the number back. */
  lemma {:induction false} DecimalValue(n: nat)
    ensures NatValue(Decimal(n)) == n
  {
    if n >= 10 {
      DecimalValue(n / 10);
      assert Decimal(n)[..|Decimal(n)| - 1] == Decimal(n / 10);
    } else {
      assert Decimal(n)[..0] == "" && NatValue("") == 0;
    }
  }

  /** Different numbers are written differently. */
  lemma {:induction false} WrittenOnce(m: nat, n: nat, hex: bool)
    requires InBase(m, hex) == InBase(n, hex)
    ensures m == n
  {
    var a, b, base := InBase(m, hex), InBase(n, hex), if hex then 16 else 10;
    assert a[|a| - 1] == DigitChar(m % base) && b[|b| - 1] == DigitChar(n % base);
    if m >= base {
      assert a[..|a| - 1] == InBase(m / base, hex);
      if n >= base {
        assert b[..|b| - 1] == InBase(n / base, hex);
        WrittenOnce(m / base, n / base, hex);
      }
    }
  }

  /** Three digits are enough below a thousand. */
  lemma ShortNumber(n: nat, hex: bool)
    requires n < 1000
    ensures |InBase(n, hex)| <= 3
  {
    var base := if hex then 16 else 10;
    var m, k := n / base, n / base / base;
    assert k < base;
    assert |InBase(k, hex)| == 1;
    assert |InBase(m, hex)| <= 2;
  }
}
