/** Rounding as the services' decimal and time libraries do it. */
module Rounding {

  // To the nearest integer, ties to the even one.
  function RoundHalfEven(x: real): int {
    var down := x.Floor;
    var rest := x - down as real;
    if rest < 0.5 then down
    else if rest > 0.5 then down + 1
    else if down % 2 == 0 then down else down + 1
  }

  // It is the one integer that is at most a half away, and even if it is a half away.
  lemma NearestOrEven(x: real, n: int)
    ensures n == RoundHalfEven(x)
      <==> n as real - 0.5 <= x <= n as real + 0.5
           && (x == n as real - 0.5 || x == n as real + 0.5 ==> n % 2 == 0)
  {
    var down := x.Floor;
    if n < down {
      assert n as real + 1.0 <= down as real <= x;
    } else if n > down + 1 {
      assert n as real >= down as real + 2.0 && x < down as real + 1.0;
    } else {
      assert n == down || n == down + 1;
    }
  }
}
