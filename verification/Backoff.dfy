/** Exponential backoff with jitter. Seconds are real numbers; the random draw is an argument. */
module Backoff {

  function Min(a: real, b: real): real {
    if a <= b then a else b
  }

  function Max(a: real, b: real): real {
    if a <= b then b else a
  }

  function Pow2(n: nat): int {
    if n == 0 then 1 else 2 * Pow2(n - 1)
  }

  function Doublings(attempt: int): nat {
    if attempt - 1 > 0 then attempt - 1 else 0
  }

  // The delay before jitter.
  function Nominal(attempt: int, base: real, cap: real): real {
    Min(cap, base * Pow2(Doublings(attempt)) as real)
  }

  // What `random.uniform(-spread, spread)` can return.
  predicate InSpread(draw: real, raw: real, jitter: real) {
    -(raw * jitter) <= draw <= raw * jitter
  }

  function Delay(attempt: int, base: real, cap: real, draw: real): real {
    Max(0.0, Nominal(attempt, base, cap) + draw)
  }

  // ----- One delay -----

  lemma {:induction false} Pow2Grows(m: nat, n: nat)
    requires m <= n
    ensures 1 <= Pow2(m) <= Pow2(n)
    decreases n
  {
    if n > 0 {
      Pow2Grows(if m < n then m else n - 1, n - 1);
      if m == n {
        Pow2Grows(0, n - 1);
      }
    }
  }

  lemma Scale(f: real, a: real, b: real)
    requires f >= 0.0 && a <= b
    ensures f * a <= f * b
  {
  }

  lemma NominalBounds(attempt: int, base: real, cap: real)
    requires base > 0.0 && cap > 0.0
    ensures 0.0 < Nominal(attempt, base, cap) <= cap
    ensures Nominal(attempt, base, cap) <= base * Pow2(Doublings(attempt)) as real
  {
    Pow2Grows(0, Doublings(attempt));
    Scale(base, 1.0, Pow2(Doublings(attempt)) as real);
  }

  // The first delay is the base, and each further one twice the one before, until the cap is reached.
  lemma NominalDoubles(attempt: int, base: real, cap: real)
    requires base > 0.0 && cap > 0.0
    ensures attempt <= 1 ==> Nominal(attempt, base, cap) == if base <= cap then base else cap
    ensures attempt >= 1 ==>
      var twice := 2.0 * Nominal(attempt, base, cap);
      Nominal(attempt + 1, base, cap) == if twice <= cap then twice else cap
  {
    if attempt >= 1 {
      var p := Pow2(Doublings(attempt)) as real;
      Pow2Grows(0, Doublings(attempt));
      assert Pow2(Doublings(attempt + 1)) == 2 * Pow2(Doublings(attempt));
      DoubleProduct(base, p);
    }
  }

  lemma DoubleProduct(base: real, p: real)
    ensures base * (2.0 * p) == 2.0 * (base * p)
  {
  }

  // No draw makes a delay negative, and a draw that does not is added to the nominal delay.
  lemma DrawIsAdded(attempt: int, base: real, cap: real, draw: real)
    ensures Delay(attempt, base, cap, draw)
         == if Nominal(attempt, base, cap) + draw >= 0.0 then Nominal(attempt, base, cap) + draw else 0.0
  {
  }

  lemma NominalNeverFalls(attempt: int, later: int, base: real, cap: real)
    requires base > 0.0 && attempt <= later
    ensures Nominal(attempt, base, cap) <= Nominal(later, base, cap)
  {
    Pow2Grows(Doublings(attempt), Doublings(later));
    Scale(base, Pow2(Doublings(attempt)) as real, Pow2(Doublings(later)) as real);
  }

  // A delay lies within (1 +/- jitter) of the nominal one.
  lemma DelayIsCloseToNominal(attempt: int, base: real, cap: real, jitter: real, draw: real)
    requires base > 0.0 && cap > 0.0 && 0.0 <= jitter && InSpread(draw, Nominal(attempt, base, cap), jitter)
    ensures (1.0 - jitter) * Nominal(attempt, base, cap)
         <= Delay(attempt, base, cap, draw)
         <= (1.0 + jitter) * Nominal(attempt, base, cap)
  {
    var raw := Nominal(attempt, base, cap);
    NominalBounds(attempt, base, cap);
    Scale(raw, 0.0, jitter);
    Distribute(raw, jitter);
  }

  lemma Distribute(raw: real, jitter: real)
    ensures (1.0 - jitter) * raw == raw - raw * jitter
    ensures (1.0 + jitter) * raw == raw + raw * jitter
  {
  }

  // The delay is positive for every draw exactly when the jitter is below one.
  lemma PositiveExactlyWhen(attempt: int, base: real, cap: real, jitter: real)
    requires base > 0.0 && cap > 0.0 && 0.0 <= jitter
    ensures (forall draw | InSpread(draw, Nominal(attempt, base, cap), jitter) :: Delay(attempt, base, cap, draw) > 0.0)
      <==> jitter < 1.0
  {
    var raw := Nominal(attempt, base, cap);
    NominalBounds(attempt, base, cap);
    if jitter < 1.0 {
      StrictScale(raw, jitter, 1.0);
      forall draw | InSpread(draw, raw, jitter) ensures Delay(attempt, base, cap, draw) > 0.0 {
        assert raw + draw >= raw - raw * jitter > 0.0;
      }
    } else {
      Scale(raw, 1.0, jitter);
      assert InSpread(-(raw * jitter), raw, jitter);
      assert Delay(attempt, base, cap, -(raw * jitter)) == 0.0;
    }
  }

  lemma StrictScale(f: real, a: real, b: real)
    requires f > 0.0 && a < b
    ensures f * a < f * b
  {
  }

  // ----- A whole retry history -----

  // The delays after attempts 1, 2, ..., |draws|.
  function Delays(draws: seq<real>, base: real, cap: real): seq<real> {
    seq(|draws|, k requires 0 <= k < |draws| => Delay(k + 1, base, cap, draws[k]))
  }

  function SumOf(xs: seq<real>): real {
    if |xs| == 0 then 0.0 else SumOf(xs[..|xs| - 1]) + xs[|xs| - 1]
  }

  ghost predicate FairDraws(draws: seq<real>, base: real, cap: real, jitter: real) {
    forall k | 0 <= k < |draws| :: InSpread(draws[k], Nominal(k + 1, base, cap), jitter)
  }

  // The smaller of n caps and the geometric sum base + 2 base + 4 base + ...
  function Bound(n: nat, base: real, cap: real): real {
    Min(Caps(n, cap), Geometric(n, base))
  }

  function ClosedBound(n: nat, base: real, cap: real): real {
    Min(n as real * cap, base * (Pow2(n) - 1) as real)
  }

  function Caps(n: nat, cap: real): real {
    if n == 0 then 0.0 else Caps(n - 1, cap) + cap
  }

  function Geometric(n: nat, base: real): real {
    if n == 0 then 0.0 else Geometric(n - 1, base) + base * Pow2(n - 1) as real
  }

  lemma BoundInClosedForm(n: nat, base: real, cap: real)
    ensures Bound(n, base, cap) == ClosedBound(n, base, cap)
  {
    CapsInClosedForm(n, cap);
    GeometricInClosedForm(n, base);
  }

  lemma {:induction false} CapsInClosedForm(n: nat, cap: real)
    ensures Caps(n, cap) == n as real * cap
  {
    if n > 0 {
      CapsInClosedForm(n - 1, cap);
      Distributes(cap, (n - 1) as real, 1.0);
    }
  }

  lemma {:induction false} GeometricInClosedForm(n: nat, base: real)
    ensures Geometric(n, base) == base * (Pow2(n) - 1) as real
  {
    if n > 0 {
      GeometricInClosedForm(n - 1, base);
      Distributes(base, (Pow2(n - 1) - 1) as real, Pow2(n - 1) as real);
    }
  }

  lemma BoundGrows(n: nat, base: real, cap: real)
    requires base > 0.0 && cap > 0.0 && n > 0
    ensures Bound(n - 1, base, cap) + Nominal(n, base, cap) <= Bound(n, base, cap)
  {
    NominalBounds(n, base, cap);
  }

  lemma Distributes(f: real, a: real, b: real)
    ensures f * (a + b) == f * a + f * b
  {
  }

  lemma Regroup(f: real, a: real, b: real)
    ensures (f * a) * b == f * (a * b)
  {
  }

  lemma MinScales(f: real, a: real, b: real)
    requires f >= 0.0
    ensures Min(f * a, f * b) == f * Min(a, b)
  {
    if a <= b {
      Scale(f, a, b);
    } else {
      Scale(f, b, a);
    }
  }

  // Scaling base and cap scales everything.
  lemma NominalScales(f: real, attempt: int, base: real, cap: real)
    requires f >= 0.0
    ensures Nominal(attempt, f * base, f * cap) == f * Nominal(attempt, base, cap)
  {
    var power := Pow2(Doublings(attempt)) as real;
    Regroup(f, base, power);
    MinScales(f, cap, base * power);
  }

  lemma ScaledStep(f: real, sum: real, x: real, total: real)
    requires total == sum + x
    ensures f * sum + f * x == f * total
  {
    Distributes(f, sum, x);
  }

  lemma {:induction false} SumsScale(f: real, n: nat, base: real, cap: real)
    ensures Caps(n, f * cap) == f * Caps(n, cap) && Geometric(n, f * base) == f * Geometric(n, base)
  {
    if n > 0 {
      SumsScale(f, n - 1, base, cap);
      ScaledStep(f, Caps(n - 1, cap), cap, Caps(n, cap));
      Regroup(f, base, Pow2(n - 1) as real);
      ScaledStep(f, Geometric(n - 1, base), base * Pow2(n - 1) as real, Geometric(n, base));
    }
  }

  lemma BoundScales(f: real, n: nat, base: real, cap: real)
    requires f >= 0.0
    ensures Bound(n, f * base, f * cap) == f * Bound(n, base, cap)
  {
    SumsScale(f, n, base, cap);
    MinScales(f, Caps(n, cap), Geometric(n, base));
  }

  lemma DelayBelow(attempt: int, base: real, cap: real, jitter: real, draw: real, f: real)
    requires base > 0.0 && cap > 0.0 && 0.0 <= jitter && InSpread(draw, Nominal(attempt, base, cap), jitter)
    requires f == 1.0 + jitter
    ensures Delay(attempt, base, cap, draw) <= f * Nominal(attempt, base, cap)
  {
    DelayIsCloseToNominal(attempt, base, cap, jitter, draw);
  }

  lemma DelayFitsScaled(attempt: int, base: real, cap: real, jitter: real, draw: real, f: real)
    requires base > 0.0 && cap > 0.0 && 0.0 <= jitter && InSpread(draw, Nominal(attempt, base, cap), jitter)
    requires f == 1.0 + jitter
    ensures Delay(attempt, base, cap, draw) <= Nominal(attempt, f * base, f * cap)
  {
    DelayBelow(attempt, base, cap, jitter, draw, f);
    NominalScales(f, attempt, base, cap);
  }

  // `f` is 1 + jitter, and `b` and `c` are base and cap times that.
  lemma DelayFits(attempt: int, base: real, cap: real, jitter: real, draw: real, f: real, b: real, c: real)
    requires base > 0.0 && cap > 0.0 && 0.0 <= jitter && InSpread(draw, Nominal(attempt, base, cap), jitter)
    requires f == 1.0 + jitter && b == f * base && c == f * cap
    ensures Delay(attempt, base, cap, draw) <= Nominal(attempt, b, c)
  {
    DelayFitsScaled(attempt, base, cap, jitter, draw, f);
  }

  lemma {:induction false} TotalFits(draws: seq<real>, base: real, cap: real, jitter: real, f: real, b: real, c: real)
    requires base > 0.0 && cap > 0.0 && 0.0 <= jitter && FairDraws(draws, base, cap, jitter)
    requires f == 1.0 + jitter && b > 0.0 && c > 0.0 && b == f * base && c == f * cap
    ensures SumOf(Delays(draws, base, cap)) <= Bound(|draws|, b, c)
  {
    var n := |draws|;
    if n > 0 {
      TotalFits(draws[..n - 1], base, cap, jitter, f, b, c);
      assert Delays(draws, base, cap)[..n - 1] == Delays(draws[..n - 1], base, cap);
      DelayFits(n, base, cap, jitter, draws[n - 1], f, b, c);
      BoundGrows(n, b, c);
    }
  }

  lemma ScaledBound(f: real, n: nat, base: real, cap: real, b: real, c: real, most: real)
    requires f >= 0.0 && b == f * base && c == f * cap
    requires most == ClosedBound(n, base, cap)
    ensures Bound(n, b, c) == f * most
  {
    BoundScales(f, n, base, cap);
    BoundInClosedForm(n, base, cap);
  }

  lemma TotalAtMost(draws: seq<real>, base: real, cap: real, jitter: real, f: real, b: real, c: real, most: real)
    requires base > 0.0 && cap > 0.0 && 0.0 <= jitter && FairDraws(draws, base, cap, jitter)
    requires f == 1.0 + jitter && b > 0.0 && c > 0.0 && b == f * base && c == f * cap
    requires Bound(|draws|, b, c) == f * most
    ensures SumOf(Delays(draws, base, cap)) <= (1.0 + jitter) * most
  {
    TotalFits(draws, base, cap, jitter, f, b, c);
  }

  lemma TotalAtMostClosed(draws: seq<real>, base: real, cap: real, jitter: real, most: real)
    requires base > 0.0 && cap > 0.0 && 0.0 <= jitter && FairDraws(draws, base, cap, jitter)
    requires most == ClosedBound(|draws|, base, cap)
    ensures SumOf(Delays(draws, base, cap)) <= (1.0 + jitter) * most
  {
    var f := 1.0 + jitter;
    var b, c := f * base, f * cap;
    StrictScale(f, 0.0, base);
    StrictScale(f, 0.0, cap);
    ScaledBound(f, |draws|, base, cap, b, c, most);
    TotalAtMost(draws, base, cap, jitter, f, b, c, most);
  }

  // The delays of n successive attempts add up to at most (1 + jitter) * min(n * cap, base * (2^n - 1)).
  lemma TotalIsBounded(draws: seq<real>, base: real, cap: real, jitter: real)
    requires base > 0.0 && cap > 0.0 && 0.0 <= jitter && FairDraws(draws, base, cap, jitter)
    ensures SumOf(Delays(draws, base, cap)) <= (1.0 + jitter) * ClosedBound(|draws|, base, cap)
  {
    TotalAtMostClosed(draws, base, cap, jitter, ClosedBound(|draws|, base, cap));
  }
}
