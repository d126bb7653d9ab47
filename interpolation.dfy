/**
 * The text a JavaScript template literal inserts for the values the default
 * summary interpolates: an integer route id in decimal, a string id as it
 * is, and `undefined` for a missing user.
 */
module Interpolation {
  import opened Wrappers
  import opened Block

  predicate IsDigit(c: char) {
    '0' <= c <= '9'
  }

  function DigitChar(d: nat): (c: char)
    requires d < 10
    ensures IsDigit(c) && c as int - '0' as int == d
  {
    ('0' as int + d) as char
  }

  /** The decimal digits of `n`, most significant first, without leading zeros. */
  function NatText(n: nat): (s: string)
    ensures |s| > 0
    ensures forall i :: 0 <= i < |s| ==> IsDigit(s[i])
    ensures |s| > 1 ==> s[0] != '0'
    decreases n
  {
    if n < 10 then [DigitChar(n)] else NatText(n / 10) + [DigitChar(n % 10)]
  }

  /** The number a string of decimal digits denotes. */
  function ParseNat(s: string): nat
    requires forall i :: 0 <= i < |s| ==> IsDigit(s[i])
    decreases |s|
  {
    if s == [] then 0
    else
      assert IsDigit(s[|s| - 1]);
      10 * ParseNat(s[..|s| - 1]) + (s[|s| - 1] as int - '0' as int)
  }

  /** Reading back the decimal text of a natural number gives the number. */
  lemma {:induction false} NatTextRoundTrip(n: nat)
    ensures ParseNat(NatText(n)) == n
    decreases n
  {
    var s := NatText(n);
    if n >= 10 {
      NatTextRoundTrip(n / 10);
      assert s[..|s| - 1] == NatText(n / 10);
    }
  }

  /** `String(n)` for an integer: a minus sign in front of the digits of a negative one. */
  function IntText(n: int): (s: string)
    ensures |s| > 0
  {
    if n < 0 then "-" + NatText(-n) else NatText(n)
  }

  /** The integer a (possibly negative) decimal text denotes; None when the text is not one. */
  function ParseInt(s: string): Option<int> {
    if |s| > 0 && s[0] == '-' then
      var t := s[1..];
      if |t| > 0 && forall i :: 0 <= i < |t| ==> IsDigit(t[i]) then Some(-(ParseNat(t) as int)) else None
    else if |s| > 0 && forall i :: 0 <= i < |s| ==> IsDigit(s[i]) then Some(ParseNat(s))
    else None
  }

  /** Reading back the text of an integer gives the integer: distinct ids never render alike. */
  lemma IntTextRoundTrip(n: int)
    ensures ParseInt(IntText(n)) == Some(n)
  {
    if n < 0 {
      NatTextRoundTrip(-n);
      assert IntText(n)[1..] == NatText(-n);
    } else {
      NatTextRoundTrip(n);
    }
  }

  /** The text `${id}` inserts for a route id. */
  function IdText(id: RouteId): (r: string)
    ensures Truthy(id) ==> r != ""
    ensures id.Num? ==> ParseInt(r) == Some(id.n)
    ensures id.Text? ==> r == id.s
  {
    match id
    case Absent => "undefined"
    case Num(n) => IntTextRoundTrip(n); IntText(n)
    case Text(s) => s
  }

  /** The text `${user?.name}` inserts: `undefined` when there is no user. */
  function NameText(name: Option<string>): (r: string)
    ensures name.Some? ==> r == name.value
    ensures name.None? ==> r == "undefined"
  {
    name.GetOr("undefined")
  }
}
