/**
 * The submission tracking id: 'R' followed by the last eight characters of the
 * submission time (milliseconds since the epoch) written in base 36 with
 * upper-case letters.
 */
module TrackingIds {

  predicate IsDigit(c: char) {
    '0' <= c <= '9' || 'A' <= c <= 'Z'
  }

  predicate AllDigits(s: string) {
    forall i :: 0 <= i < |s| ==> IsDigit(s[i])
  }

  /** The base-36 digit for `d`, as `toString(36).toUpperCase()` writes it. */
  function Digit(d: nat): (c: char)
    requires d < 36
    ensures IsDigit(c)
  {
    if d < 10 then ('0' as int + d) as char else ('A' as int + d - 10) as char
  }

  function DigitValue(c: char): (d: nat)
    requires IsDigit(c)
    ensures d < 36
  {
    if c <= '9' then c as int - '0' as int else c as int - 'A' as int + 10
  }

  lemma DigitRoundTrip(d: nat)
    requires d < 36
    ensures DigitValue(Digit(d)) == d
  {
  }

  function Pow36(k: nat): (p: nat)
    ensures p >= 1
  {
    if k == 0 then 1 else 36 * Pow36(k - 1)
  }

  /** `n.toString(36).toUpperCase()` for a non-negative integer `n`: no leading zeros. */
  function Base36(n: nat): (s: string)
    ensures |s| >= 1 && AllDigits(s)
    ensures n > 0 ==> s[0] != '0'
    ensures |s| > 1 ==> s[0] != '0'
    decreases n
  {
    if n < 36 then [Digit(n)] else Base36(n / 36) + [Digit(n % 36)]
  }

  /** The number a string of base-36 digits denotes. */
  function Value(s: string): nat
    requires AllDigits(s)
  {
    if s == [] then 0 else Value(s[..|s| - 1]) * 36 + DigitValue(s[|s| - 1])
  }

  /** Reading the base-36 text back gives the number it was written from. */
  lemma {:induction false} ValueOfBase36(n: nat)
    ensures Value(Base36(n)) == n
    decreases n
  {
    if n < 36 {
      DigitRoundTrip(n);
    } else {
      var s := Base36(n);
      ValueOfBase36(n / 36);
      DigitRoundTrip(n % 36);
      assert s[..|s| - 1] == Base36(n / 36);
    }
  }

  /** A number below 36^k takes at most k base-36 digits. */
  lemma {:induction false} Base36Length(n: nat, k: nat)
    requires 1 <= k && n < Pow36(k)
    ensures |Base36(n)| <= k
    decreases n
  {
    if n >= 36 {
      Base36Length(n / 36, k - 1);
    }
  }

  /** `s.slice(-8)`: the last eight characters, or all of `s` when it is shorter. */
  function Last8(s: string): (r: string)
    ensures |r| <= 8 && |r| <= |s| && r == s[|s| - |r|..]
    ensures |s| <= 8 ==> r == s
    ensures |s| > 8 ==> |r| == 8
  {
    if |s| <= 8 then s else s[|s| - 8..]
  }

  /** The tracking id for submission time `now`. */
  function TrackingId(now: nat): (id: string)
    ensures 2 <= |id| <= 9 && id[0] == 'R'
    ensures AllDigits(id[1..])
  {
    "R" + Last8(Base36(now))
  }

  /** Until the clock reaches 36^8 ms (in the year 2059) distinct times give distinct tracking ids. */
  lemma TrackingIdInjective(a: nat, b: nat)
    requires a < Pow36(8) && b < Pow36(8)
    requires TrackingId(a) == TrackingId(b)
    ensures a == b
  {
    Base36Length(a, 8);
    Base36Length(b, 8);
    assert TrackingId(a)[1..] == Base36(a);
    assert TrackingId(b)[1..] == Base36(b);
    ValueOfBase36(a);
    ValueOfBase36(b);
  }
}
