/** The provider call: breaker around retry loop around a single request. */
module CallProvider {
  import opened Contracts
  import opened Store
  import opened Protocol
  import opened Retry
  import opened Breaker

  // How one request to the provider can fail. Only the first two count as processor errors.
  datatype CallError = TimedOut(message: string) | ServerError(message: string) | OtherError

  datatype Answer = Answer(confirmed: bool, partialFailure: bool)

  predicate Transient(e: CallError) {
    e.TimedOut? || e.ServerError?
  }

  // What the worker sees of the last outcome: an answer, a processor error, or any other exception.
  function Classify(outcome: Try<Answer, CallError>): CallResult {
    match outcome
    case Returned(a) => Answered(a.confirmed, a.partialFailure)
    case Raised(TimedOut(message)) => ProcessorFailure(message)
    case Raised(ServerError(message)) => ProcessorFailure(message)
    case Raised(OtherError) => OtherFailure
  }

  // The breakers by provider, and what they remember.
  type Breakers = map<string, CircuitBreaker>

  type Memories = map<CircuitBreaker, Memory>

  // The breaker of the provider lets a call through at `asked`; a provider without a breaker gets none.
  predicate LetsCall(breakers: Breakers, m: Memories, provider: string, asked: Time) {
    && provider in breakers && breakers[provider] in m
    && Admits(breakers[provider].limits, m[breakers[provider]], asked)
  }

  // What one execution answers and what the breakers remember behind it. `call(k)` is the outcome of the
  // k-th request. A refused call is no processor error. The breaker hears of a whole retry loop as one
  // success or failure.
  ghost predicate Executed(breakers: Breakers, m: Memories, provider: string, call: nat -> Try<Answer, CallError>,
                           asked: Time, ended: Time, result: CallResult, calls: nat, m': Memories)
  {
    if !LetsCall(breakers, m, provider, asked) then result == OtherFailure && calls == 0 && m' == m
    else
      var b := breakers[provider];
      && StopsAt(call, Transient, CALLS_PER_ATTEMPT, calls)
      && result == Classify(call(calls))
      && m' == m[b := if call(calls).Returned? then FRESH
                      else AfterFailure(b.limits, AfterAllow(b.limits, m[b], asked), ended)]
  }

  class CallProviderCommand {
    const breakers: Breakers

    constructor (breakers: Breakers)
      ensures this.breakers == breakers
    {
      this.breakers := breakers;
    }

    ghost function Remembered(): Memories
      reads breakers.Values
    {
      map b | b in breakers.Values :: b.Fields()
    }

    method Execute(provider: string, call: nat -> Try<Answer, CallError>, asked: Time, ended: Time)
      returns (result: CallResult, calls: nat)
      modifies breakers.Values
      ensures CallsFit(result, calls)
      ensures Executed(breakers, old(Remembered()), provider, call, asked, ended, result, calls, Remembered())
      ensures calls <= 3 && forall k: nat | 1 <= k < calls :: call(k).Raised? && !call(k).error.OtherError?
      ensures 1 <= calls < 3 ==> call(calls).Returned? || call(calls).error.OtherError?
    {
      if provider !in breakers {
        return OtherFailure, 0;
      }
      var breaker := breakers[provider];
      var allowed := breaker.AllowCall(asked);
      if !allowed {
        return OtherFailure, 0;
      }
      var ending;
      ending, calls := RetryAsync(call, Transient, CALLS_PER_ATTEMPT);
      result := Classify(ending.outcome);
      if ending.outcome.Raised? {
        breaker.OnFailure(ended);
      } else {
        breaker.OnSuccess();
      }
    }
  }

  // ----- How often a provider is called during an outage -----

  // One admitted execution: when it was admitted, when it ended, when it called the provider, and how
  // it ended.
  datatype Execution = Execution(start: Time, end: Time, calls: seq<Time>, ok: bool)

  function OpsOf(xs: seq<Execution>): seq<Op> {
    var n := |xs|;
    if n == 0 then []
    else OpsOf(xs[..n - 1])
         + [Asked(xs[n - 1].start), if xs[n - 1].ok then Succeeded(xs[n - 1].end) else Op.Failed(xs[n - 1].end)]
  }

  // One more execution does to the breaker what the command does: admission first, one report at the end.
  lemma OneMoreExecution(lim: Limits, xs: seq<Execution>, x: Execution)
    ensures Replay(lim, OpsOf(xs + [x]))
         == if x.ok then FRESH else AfterFailure(lim, AfterAllow(lim, Replay(lim, OpsOf(xs)), x.start), x.end)
  {
    var ops := OpsOf(xs);
    var report := if x.ok then Succeeded(x.end) else Op.Failed(x.end);
    assert (xs + [x])[..|xs|] == xs;
    assert OpsOf(xs + [x]) == ops + [Asked(x.start), report];
    assert (ops + [Asked(x.start), report])[..|ops| + 1] == ops + [Asked(x.start)];
    assert (ops + [Asked(x.start)])[..|ops|] == ops;
  }

  ghost predicate WellTimed(x: Execution) {
    && x.start <= x.end
    && |x.calls| <= CALLS_PER_ATTEMPT
    && forall c | c in x.calls :: x.start <= c <= x.end
  }

  // Executions of one provider one after the other, each admitted by the breaker as it was then.
  ghost predicate Sequential(lim: Limits, xs: seq<Execution>) {
    && (forall i | 0 <= i < |xs| :: WellTimed(xs[i]))
    && (forall i, j | 0 <= i < j < |xs| :: xs[i].end <= xs[j].start)
    && (forall i | 0 <= i < |xs| :: Admits(lim, Replay(lim, OpsOf(xs[..i])), xs[i].start))
  }

  function CallsWithin(times: seq<Time>, lo: Time, hi: Time): nat {
    var n := |times|;
    if n == 0 then 0 else CallsWithin(times[..n - 1], lo, hi) + (if lo <= times[n - 1] <= hi then 1 else 0)
  }

  function TotalWithin(xs: seq<Execution>, lo: Time, hi: Time): nat {
    var n := |xs|;
    if n == 0 then 0 else TotalWithin(xs[..n - 1], lo, hi) + CallsWithin(xs[n - 1].calls, lo, hi)
  }

  predicate Touches(x: Execution, lo: Time, hi: Time) {
    CallsWithin(x.calls, lo, hi) > 0
  }

  lemma {:induction false} CallsWithinBounds(times: seq<Time>, lo: Time, hi: Time)
    ensures CallsWithin(times, lo, hi) <= |times|
    ensures CallsWithin(times, lo, hi) > 0 ==> exists c :: c in times && lo <= c <= hi
  {
    var n := |times|;
    if n > 0 {
      CallsWithinBounds(times[..n - 1], lo, hi);
      if lo <= times[n - 1] <= hi {
        assert times[n - 1] in times;
      } else if CallsWithin(times[..n - 1], lo, hi) > 0 {
        var c :| c in times[..n - 1] && lo <= c <= hi;
        assert c in times;
      }
    }
  }

  lemma TouchingOverlaps(x: Execution, lo: Time, hi: Time)
    requires WellTimed(x) && Touches(x, lo, hi)
    ensures x.start <= hi && lo <= x.end
  {
    CallsWithinBounds(x.calls, lo, hi);
  }

  // If only executions from `first` on touch the interval, each contributes at most three calls.
  lemma {:induction false} TotalBound(xs: seq<Execution>, lo: Time, hi: Time, first: nat)
    requires first <= |xs| && forall i | 0 <= i < |xs| :: |xs[i].calls| <= CALLS_PER_ATTEMPT
    requires forall i | 0 <= i < first :: !Touches(xs[i], lo, hi)
    ensures TotalWithin(xs, lo, hi) <= CALLS_PER_ATTEMPT * (|xs| - first)
  {
    var n := |xs|;
    if n > 0 {
      CallsWithinBounds(xs[n - 1].calls, lo, hi);
      TotalBound(xs[..n - 1], lo, hi, if first < n then first else n - 1);
    }
  }

  lemma {:induction false} NothingAfter(xs: seq<Execution>, lo: Time, hi: Time, last: nat)
    requires last <= |xs| && forall i | last <= i < |xs| :: !Touches(xs[i], lo, hi)
    ensures TotalWithin(xs, lo, hi) == TotalWithin(xs[..last], lo, hi)
  {
    var n := |xs|;
    if last == n {
      assert xs[..last] == xs;
    } else {
      NothingAfter(xs[..n - 1], lo, hi, last);
      assert xs[..n - 1][..last] == xs[..last];
    }
  }

  lemma {:induction false} OpsAreTimely(xs: seq<Execution>, now: Time)
    requires forall i | 0 <= i < |xs| :: WellTimed(xs[i]) && xs[i].end <= now
    requires forall i, j | 0 <= i < j < |xs| :: xs[i].end <= xs[j].start
    ensures Timely(OpsOf(xs), now)
  {
    var n := |xs|;
    if n > 0 {
      OpsAreTimely(xs[..n - 1], xs[n - 1].start);
    }
  }

  // The history after executions of which the last `k` failed.
  lemma {:induction false} FailuresPileUp(xs: seq<Execution>, k: nat)
    requires k <= |xs| && forall i | |xs| - k <= i < |xs| :: !xs[i].ok
    ensures FailureCount(OpsOf(xs)) >= k
    ensures k > 0 ==> LastFailure(OpsOf(xs)) == Some(xs[|xs| - 1].end)
  {
    var n := |xs|;
    if k > 0 {
      FailuresPileUp(xs[..n - 1], k - 1);
      var ops := OpsOf(xs[..n - 1]);
      assert OpsOf(xs)[..|ops| + 1] == ops + [Asked(xs[n - 1].start)];
      assert (ops + [Asked(xs[n - 1].start)])[..|ops|] == ops;
    }
  }

  // After `threshold` failures in a row the next execution has to wait for the recovery time.
  lemma AdmittedAfterRecovery(lim: Limits, xs: seq<Execution>, i: nat)
    requires lim.threshold >= 1 && Sequential(lim, xs) && lim.threshold <= i < |xs|
    requires forall j | i - lim.threshold <= j < i :: !xs[j].ok
    ensures xs[i].start >= xs[i - 1].end + lim.recovery
  {
    var before := xs[..i];
    OpsAreTimely(before, xs[i].start);
    AdmitsExactlyByHistory(lim, OpsOf(before), xs[i].start);
    FailuresPileUp(before, lim.threshold);
  }

  // n times r.
  function Multiple(n: nat, r: int): int {
    if n == 0 then 0 else Multiple(n - 1, r) + r
  }

  // From the `threshold`-th failure of an outage on, executions start at least a recovery time apart.
  lemma {:induction false} StartsSpread(lim: Limits, xs: seq<Execution>, first: nat, n: nat, i: nat)
    requires lim.threshold >= 1 && lim.recovery > 0 && Sequential(lim, xs)
    requires i == first + lim.threshold + n < |xs| && forall j | first <= j < i :: !xs[j].ok
    ensures xs[i].start >= xs[first].end + Multiple(n + 1, lim.recovery)
    decreases n
  {
    AdmittedAfterRecovery(lim, xs, i);
    assert WellTimed(xs[i - 1]);
    if n > 0 {
      StartsSpread(lim, xs, first, n - 1, i - 1);
    } else {
      assert Multiple(1, lim.recovery) == Multiple(0, lim.recovery) + lim.recovery;
      assert i - 1 > first ==> xs[first].end <= xs[i - 1].start;
    }
  }

  // How often r fits into length: floor(length / r).
  function Fits(length: nat, r: int): nat
    requires r > 0
  {
    if length < r then 0 else Fits(length - r, r) + 1
  }

  lemma {:induction false} MultipleFits(m: nat, r: int, length: nat)
    requires r > 0 && Multiple(m, r) <= length
    ensures m <= Fits(length, r)
  {
    if m > 0 {
      MultipleNonNegative(m - 1, r);
      MultipleFits(m - 1, r, length - r);
    }
  }

  lemma {:induction false} MultipleNonNegative(m: nat, r: int)
    requires r > 0
    ensures Multiple(m, r) >= 0
  {
    if m > 0 {
      MultipleNonNegative(m - 1, r);
    }
  }

  // How many executions an outage leaves room for.
  lemma ExecutionsDuring(lim: Limits, xs: seq<Execution>, first: nat, last: nat, lo: Time, length: nat)
    requires lim.threshold >= 1 && lim.recovery > 0 && Sequential(lim, xs) && first <= last < |xs|
    requires xs[first].end >= lo && xs[last].start <= lo + length
    requires forall j | first <= j < last :: !xs[j].ok
    ensures last - first + 1 <= lim.threshold + Fits(length, lim.recovery)
  {
    if last >= first + lim.threshold {
      var n := last - first - lim.threshold;
      StartsSpread(lim, xs, first, n, last);
      MultipleFits(n + 1, lim.recovery, length);
    }
  }

  lemma FailuresBetween(lim: Limits, xs: seq<Execution>, first: nat, last: nat, lo: Time, hi: Time)
    requires Sequential(lim, xs) && first <= last < |xs|
    requires xs[first].end >= lo && xs[last].start <= hi
    requires forall i | 0 <= i < |xs| && lo <= xs[i].end <= hi :: !xs[i].ok
    ensures forall j | first <= j < last :: !xs[j].ok
  {
    forall j | first <= j < last ensures !xs[j].ok {
      assert WellTimed(xs[j]);
      assert j > first ==> xs[first].end <= xs[j].start;
      assert xs[j].end <= xs[last].start;
    }
  }

  // If executions outside first..last do not touch the interval, the calls in it are at most three for
  // each execution in that range.
  lemma TotalInRange(xs: seq<Execution>, lo: Time, hi: Time, first: nat, last: nat, room: int)
    requires first <= last < |xs| && forall i | 0 <= i < |xs| :: |xs[i].calls| <= CALLS_PER_ATTEMPT
    requires forall i | 0 <= i < |xs| && !(first <= i <= last) :: !Touches(xs[i], lo, hi)
    requires last - first + 1 <= room
    ensures TotalWithin(xs, lo, hi) <= CALLS_PER_ATTEMPT * room
  {
    NothingAfter(xs, lo, hi, last + 1);
    TotalBound(xs[..last + 1], lo, hi, first);
  }

  lemma OutageInRange(lim: Limits, xs: seq<Execution>, lo: Time, hi: Time, first: nat, last: nat, room: nat)
    requires lim.threshold >= 1 && lim.recovery > 0 && Sequential(lim, xs) && first <= last < |xs| && lo <= hi
    requires room == lim.threshold + Fits(hi - lo, lim.recovery)
    requires forall i | 0 <= i < |xs| && lo <= xs[i].end <= hi :: !xs[i].ok
    requires Touches(xs[first], lo, hi) && Touches(xs[last], lo, hi)
    requires forall i | 0 <= i < |xs| && !(first <= i <= last) :: !Touches(xs[i], lo, hi)
    ensures TotalWithin(xs, lo, hi) <= CALLS_PER_ATTEMPT * room
  {
    TouchingOverlaps(xs[first], lo, hi);
    TouchingOverlaps(xs[last], lo, hi);
    FailuresBetween(lim, xs, first, last, lo, hi);
    ExecutionsDuring(lim, xs, first, last, lo, hi - lo);
    TotalInRange(xs, lo, hi, first, last, room);
  }

  // In an interval of length `length` without a success the provider is called at most
  // 3 * (threshold + floor(length / recovery)) times.
  lemma OutageBound(lim: Limits, xs: seq<Execution>, lo: Time, length: nat)
    requires lim.threshold >= 1 && lim.recovery > 0 && Sequential(lim, xs)
    requires forall i | 0 <= i < |xs| && lo <= xs[i].end <= lo + length :: !xs[i].ok
    ensures TotalWithin(xs, lo, lo + length) <= 3 * (lim.threshold + Fits(length, lim.recovery))
  {
    if exists i :: 0 <= i < |xs| && Touches(xs[i], lo, lo + length) {
      var first, last := TouchedRange(xs, lo, lo + length);
      OutageInRange(lim, xs, lo, lo + length, first, last, lim.threshold + Fits(length, lim.recovery));
    } else {
      NothingAfter(xs, lo, lo + length, 0);
    }
  }

  lemma TouchedRange(xs: seq<Execution>, lo: Time, hi: Time) returns (first: nat, last: nat)
    requires exists i :: 0 <= i < |xs| && Touches(xs[i], lo, hi)
    ensures first <= last < |xs| && Touches(xs[first], lo, hi) && Touches(xs[last], lo, hi)
    ensures forall i | 0 <= i < |xs| && !(first <= i <= last) :: !Touches(xs[i], lo, hi)
  {
    first, last := 0, |xs| - 1;
    while !Touches(xs[first], lo, hi)
      invariant first < |xs| && forall j | 0 <= j < first :: !Touches(xs[j], lo, hi)
      decreases |xs| - first
    {
      first := first + 1;
    }
    while !Touches(xs[last], lo, hi)
      invariant last < |xs| && forall j | last < j < |xs| :: !Touches(xs[j], lo, hi)
      decreases last
    {
      last := last - 1;
    }
  }

  // ----- What the worker's calls are -----

  // One call of the command: what it was asked, when it called the provider, and what it answered.
  datatype Consultation = Consultation(provider: string, call: nat -> Try<Answer, CallError>, asked: Time, ended: Time,
                                       times: seq<Time>, result: CallResult)

  // One consultation after the other, each with the breakers as the one before left them.
  ghost predicate Consulted(breakers: Breakers, ms: seq<Memories>, cs: seq<Consultation>) {
    && |ms| == |cs| + 1
    && forall k | 0 <= k < |cs| ::
         Executed(breakers, ms[k], cs[k].provider, cs[k].call, cs[k].asked, cs[k].ended, cs[k].result, |cs[k].times|,
                  ms[k + 1])
  }

  predicate LetsThrough(breakers: Breakers, m: Memories, c: Consultation, b: CircuitBreaker) {
    LetsCall(breakers, m, c.provider, c.asked) && breakers[c.provider] == b
  }

  function ExecutionOf(c: Consultation): Execution {
    Execution(c.asked, c.ended, c.times, c.call(|c.times|).Returned?)
  }

  // The executions that breaker `b` let through in the first `n` consultations.
  function Through(breakers: Breakers, ms: seq<Memories>, cs: seq<Consultation>, b: CircuitBreaker, n: nat)
    : seq<Execution>
    requires n <= |cs| < |ms|
  {
    if n == 0 then []
    else if LetsThrough(breakers, ms[n - 1], cs[n - 1], b)
    then Through(breakers, ms, cs, b, n - 1) + [ExecutionOf(cs[n - 1])]
    else Through(breakers, ms, cs, b, n - 1)
  }

  // What a breaker remembers is the history of the executions it let through.
  ghost predicate Remembers(lim: Limits, m: Memories, b: CircuitBreaker, xs: seq<Execution>) {
    && b in m && m[b] == Replay(lim, OpsOf(xs))
    && forall i | 0 <= i < |xs| :: Admits(lim, Replay(lim, OpsOf(xs[..i])), xs[i].start)
  }

  lemma OneMoreRemembered(breakers: Breakers, m: Memories, c: Consultation, m': Memories, b: CircuitBreaker,
                          xs: seq<Execution>)
    requires Remembers(b.limits, m, b, xs)
    requires Executed(breakers, m, c.provider, c.call, c.asked, c.ended, c.result, |c.times|, m')
    ensures Remembers(b.limits, m', b, if LetsThrough(breakers, m, c, b) then xs + [ExecutionOf(c)] else xs)
  {
    if LetsThrough(breakers, m, c, b) {
      var all := xs + [ExecutionOf(c)];
      OneMoreExecution(b.limits, xs, ExecutionOf(c));
      forall i | 0 <= i < |all| ensures Admits(b.limits, Replay(b.limits, OpsOf(all[..i])), all[i].start) {
        if i < |xs| {
          assert all[..i] == xs[..i];
        } else {
          assert all[..i] == xs;
        }
      }
    }
  }

  lemma {:induction false} BreakerRemembers(breakers: Breakers, ms: seq<Memories>, cs: seq<Consultation>,
                                            b: CircuitBreaker, n: nat)
    requires Consulted(breakers, ms, cs) && n <= |cs| && b in ms[0] && ms[0][b] == FRESH
    ensures Remembers(b.limits, ms[n], b, Through(breakers, ms, cs, b, n))
  {
    if n > 0 {
      BreakerRemembers(breakers, ms, cs, b, n - 1);
      OneMoreRemembered(breakers, ms[n - 1], cs[n - 1], ms[n], b, Through(breakers, ms, cs, b, n - 1));
    }
  }

  // So in an interval without a success the provider behind a breaker is called by the worker at most
  // 3 * (threshold + floor(length / recovery)) times, however many requests there are to handle.
  lemma WorkerOutageBound(breakers: Breakers, ms: seq<Memories>, cs: seq<Consultation>, b: CircuitBreaker,
                          xs: seq<Execution>, lo: Time, length: nat)
    requires Consulted(breakers, ms, cs) && b in ms[0] && ms[0][b] == FRESH
    requires xs == Through(breakers, ms, cs, b, |cs|) && b.limits.threshold >= 1 && b.limits.recovery > 0
    requires forall i | 0 <= i < |xs| :: WellTimed(xs[i])
    requires forall i, j | 0 <= i < j < |xs| :: xs[i].end <= xs[j].start
    requires forall i | 0 <= i < |xs| && lo <= xs[i].end <= lo + length :: !xs[i].ok
    ensures TotalWithin(xs, lo, lo + length) <= 3 * (b.limits.threshold + Fits(length, b.limits.recovery))
  {
    BreakerRemembers(breakers, ms, cs, b, |cs|);
    OutageBound(b.limits, xs, lo, length);
  }
}
