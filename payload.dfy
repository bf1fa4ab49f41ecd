/**
 * The cursor-delta value that a single-finger move writes to the coordinate
 * entity: `"<x>,<y>"`, where each component is the scaled integer delta
 * rendered in decimal with an explicit sign (`+` for zero and above).
 *
 * The parser at the end is not part of the card; it is the reading a
 * consumer of the value performs, and the round trip `ParseCoords(Coords(x, y))`
 * is what shows that the rendering loses nothing.
 */
module Payload {

  import opened Wrappers

  predicate IsDigit(c: char) {
    '0' <= c <= '9'
  }

  predicate IsDigits(s: string) {
    forall i :: 0 <= i < |s| ==> IsDigit(s[i])
  }

  function DigitChar(d: nat): (c: char)
    requires d < 10
    ensures IsDigit(c)
  {
    ('0' as int + d) as char
  }

  function DigitValue(c: char): (d: nat)
    requires IsDigit(c)
    ensures d < 10
  {
    c as int - '0' as int
  }

  /** How JavaScript renders a non-negative integer: decimal digits, no leading zero. */
  function Decimal(n: nat): (s: string)
    ensures |s| >= 1 && IsDigits(s)
    ensures |s| > 1 ==> s[0] != '0'
    decreases n
  {
    if n < 10 then [DigitChar(n)] else Decimal(n / 10) + [DigitChar(n % 10)]
  }

  /** The value of a string of decimal digits, most significant first. */
  function DigitsValue(s: string): nat
    requires IsDigits(s)
  {
    if s == [] then 0 else DigitsValue(s[..|s| - 1]) * 10 + DigitValue(s[|s| - 1])
  }

  lemma {:induction false} DecimalRoundTrip(n: nat)
    ensures DigitsValue(Decimal(n)) == n
    decreases n
  {
    var s := Decimal(n);
    if n >= 10 {
      DecimalRoundTrip(n / 10);
      assert s[..|s| - 1] == Decimal(n / 10);
    }
  }

  /**
   * One component of the value: `dx >= 0 ? "+" + dx : "" + dx`. JavaScript
   * prints a negative integer with its own minus sign, so every component
   * starts with exactly one sign character followed by the digits of |n|.
   */
  function Signed(n: int): (s: string)
    ensures |s| >= 2 && (s[0] == '+' || s[0] == '-')
    ensures s[0] == '+' <==> n >= 0
    ensures IsDigits(s[1..]) && ',' !in s
  {
    var digits := if n >= 0 then Decimal(n) else Decimal(-n);
    var s := (if n >= 0 then "+" else "-") + digits;
    assert s[1..] == digits;
    assert forall i :: 1 <= i < |s| ==> s[i] == digits[i - 1];
    s
  }

  /** The `value` sent with `set_value`: the two signed components joined by a comma. */
  function Coords(x: int, y: int): (s: string)
  {
    Signed(x) + "," + Signed(y)
  }

  function ParseSigned(s: string): (r: Option<int>)
  {
    if |s| >= 2 && (s[0] == '+' || s[0] == '-') && IsDigits(s[1..]) then
      var v: int := DigitsValue(s[1..]);
      Some(if s[0] == '+' then v else -v)
    else
      None
  }

  /** Splits at the first comma; None when there is none. */
  function SplitAtComma(s: string): Option<(string, string)>
  {
    if s == [] then None
    else if s[0] == ',' then Some(([], s[1..]))
    else
      match SplitAtComma(s[1..])
      case None => None
      case Some(parts) => Some(([s[0]] + parts.0, parts.1))
  }

  function ParseCoords(s: string): Option<(int, int)>
  {
    match SplitAtComma(s)
    case None => None
    case Some(parts) =>
      match (ParseSigned(parts.0), ParseSigned(parts.1))
      case (Some(x), Some(y)) => Some((x, y))
      case _ => None
  }

  lemma {:induction false} SplitAtFirstComma(a: string, b: string)
    requires ',' !in a
    ensures SplitAtComma(a + "," + b) == Some((a, b))
  {
    var s := a + "," + b;
    if a == [] {
      assert s[0] == ',' && s[1..] == b;
    } else {
      assert s[0] == a[0] && s[1..] == a[1..] + "," + b;
      SplitAtFirstComma(a[1..], b);
      assert [a[0]] + a[1..] == a;
    }
  }

  lemma SignedRoundTrip(n: int)
    ensures ParseSigned(Signed(n)) == Some(n)
  {
    var s := Signed(n);
    if n >= 0 {
      assert s[1..] == Decimal(n);
      DecimalRoundTrip(n);
    } else {
      assert s[1..] == Decimal(-n);
      DecimalRoundTrip(-n);
    }
  }

  /** The consumer reads back exactly the pair that was rendered. */
  lemma CoordsRoundTrip(x: int, y: int)
    ensures ParseCoords(Coords(x, y)) == Some((x, y))
  {
    SplitAtFirstComma(Signed(x), Signed(y));
    SignedRoundTrip(x);
    SignedRoundTrip(y);
  }

  /** Distinct deltas never produce the same value. */
  lemma CoordsInjective(x: int, y: int, x': int, y': int)
    requires Coords(x, y) == Coords(x', y')
    ensures x == x' && y == y'
  {
    CoordsRoundTrip(x, y);
    CoordsRoundTrip(x', y');
  }
}
