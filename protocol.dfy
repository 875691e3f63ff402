/** Checks shared by the relay server and the client app. */
module Protocol {

  /** `\d` in a JavaScript regular expression: an ASCII digit. */
  predicate IsAsciiDigit(c: char) {
    '0' <= c <= '9'
  }

  /** `/^\d{n}$/.test(s)`: the whole of `s` is `n` repetitions of `\d`
      (JavaScript's `$` without the `m` flag matches only at the very end). */
  function DigitsExactly(s: string, n: nat): (r: bool)
    ensures r <==> |s| == n && forall i | 0 <= i < |s| :: IsAsciiDigit(s[i])
  {
    if n == 0 then s == []
    else s != [] && IsAsciiDigit(s[0]) && DigitsExactly(s[1..], n - 1)
  }

  /** A pairing code: `/^\d{6}$/`. */
  predicate SixDigits(s: string) {
    DigitsExactly(s, 6)
  }

  /** `Math.min` and `Math.max` on numbers. */
  function Min(a: real, b: real): real { if a <= b then a else b }
  function Max(a: real, b: real): real { if a >= b then a else b }

  /** `Math.max(0.25, Math.min(2, x))`: a playback speed forced into [0.25, 2]. */
  function ClampSpeed(x: real): (r: real)
    ensures 0.25 <= r <= 2.0
    ensures 0.25 <= x <= 2.0 ==> r == x
    ensures x < 0.25 ==> r == 0.25
    ensures x > 2.0 ==> r == 2.0
  {
    Max(0.25, Min(2.0, x))
  }
}
