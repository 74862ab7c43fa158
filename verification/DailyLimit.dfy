/** The daily limit: one counter of cents per day, customer and rail, that expires near midnight, against
    the amounts it stands for. One customer and rail, a fixed policy. Times are microseconds. */
module DailyLimit {
  import opened Contracts
  import opened Rounding

  const SECOND: int := 1000000

  function DayOf(t: Time): int {
    t / 86400000000
  }

  // 23:59:59 of the day of `t`.
  function DayEnd(t: Time): Time {
    DayOf(t) * 86400000000 + 86399000000
  }

  // Seconds to the end of the day, truncated towards zero, but at least one.
  function SecondsLeft(now: Time): int {
    var left := if DayEnd(now) >= now then (DayEnd(now) - now) / 1000000 else 0;
    if left < 1 then 1 else left
  }

  lemma ExpiryNearMidnight(now: Time)
    ensures DayEnd(now) - SECOND < now + SecondsLeft(now) * SECOND < DayEnd(now) + 2 * SECOND
  {
  }

  // ----- Cents -----

  function AsCents(amount: real): int {
    RoundHalfEven(amount * 100.0)
  }

  lemma CentsAreClose(amount: real)
    ensures -0.5 <= amount * 100.0 - AsCents(amount) as real <= 0.5
    ensures amount * 100.0 == (amount * 100.0).Floor as real ==> AsCents(amount) as real == amount * 100.0
    ensures amount >= 0.0 ==> AsCents(amount) >= 0
  {
  }

  // ----- The counter -----

  datatype Counter = Counter(cents: int, expiresAt: Time)

  // The counters by day.
  type Counters = map<int, Counter>

  predicate Lives(cs: Counters, day: int, at: Time) {
    day in cs && at < cs[day].expiresAt
  }

  function Current(cs: Counters, day: int, at: Time): int {
    if Lives(cs, day, at) then cs[day].cents else 0
  }

  predicate Lets(cs: Counters, limit: real, amount: real, day: int, at: Time) {
    Current(cs, day, at) + AsCents(amount) <= AsCents(limit)
  }

  // The clock is read once for the day and again for the time to live; the store reads the counter between
  // the two, and starts the time to live when it sets the value.
  datatype Request = Request(amount: real, now: Time, readAt: Time, ttlAt: Time, setAt: Time)

  function After(cs: Counters, limit: real, r: Request): Counters {
    var day := DayOf(r.now);
    if Lets(cs, limit, r.amount, day, r.readAt)
    then cs[day := Counter(Current(cs, day, r.readAt) + AsCents(r.amount), r.setAt + SecondsLeft(r.ttlAt) * SECOND)]
    else cs
  }

  function Run(limit: real, rs: seq<Request>): Counters {
    var n := |rs|;
    if n == 0 then map[] else After(Run(limit, rs[..n - 1]), limit, rs[n - 1])
  }

  // ----- Against the amounts -----

  predicate Passed(limit: real, rs: seq<Request>)
    requires |rs| > 0
  {
    var n := |rs| - 1;
    Lets(Run(limit, rs[..n]), limit, rs[n].amount, DayOf(rs[n].now), rs[n].readAt)
  }

  // Before 23:59:58 of the day.
  predicate InTime(day: int, at: Time) {
    at < day * 86400000000 + 86398000000
  }

  // The amounts that passed on `day`, oldest first.
  function PassedOn(limit: real, rs: seq<Request>, day: int): seq<real> {
    var n := |rs|;
    if n == 0 then []
    else PassedOn(limit, rs[..n - 1], day)
         + (if DayOf(rs[n - 1].now) == day && Passed(limit, rs) then [rs[n - 1].amount] else [])
  }

  function Cents(amounts: seq<real>): int {
    var n := |amounts|;
    if n == 0 then 0 else Cents(amounts[..n - 1]) + AsCents(amounts[n - 1])
  }

  function Total(amounts: seq<real>): real {
    var n := |amounts|;
    if n == 0 then 0.0 else Total(amounts[..n - 1]) + amounts[n - 1]
  }

  // The store has read the counter for all of them by `at`.
  ghost predicate Timely(rs: seq<Request>, at: Time) {
    forall i | 0 <= i < |rs| :: rs[i].now <= rs[i].readAt <= rs[i].ttlAt <= rs[i].setAt && rs[i].readAt <= at
  }

  lemma CentsAppend(amounts: seq<real>, x: real)
    ensures Cents(amounts + [x]) == Cents(amounts) + AsCents(x)
    ensures Total(amounts + [x]) == Total(amounts) + x
  {
    assert (amounts + [x])[..|amounts|] == amounts;
  }

  // What one request does to the amounts of a day.
  lemma PassedOnStep(limit: real, rs: seq<Request>, day: int)
    requires |rs| > 0
    ensures var n := |rs| - 1; var old' := PassedOn(limit, rs[..n], day);
      PassedOn(limit, rs, day)
      == if DayOf(rs[n].now) == day && Passed(limit, rs) then old' + [rs[n].amount] else old'
  {
    var n := |rs| - 1;
    assert PassedOn(limit, rs[..n], day) + [] == PassedOn(limit, rs[..n], day);
  }

  lemma DayNeverFalls(t: Time, t': Time)
    requires t <= t'
    ensures DayOf(t) <= DayOf(t')
    ensures DayEnd(t) <= DayEnd(t')
  {
  }

  // ----- Starts of a day's counter -----

  // The last request passed on `day`.
  predicate PassesOn(limit: real, rs: seq<Request>, day: int) {
    |rs| > 0 && DayOf(rs[|rs| - 1].now) == day && Passed(limit, rs)
  }

  // It found the counter of that day gone, and starts a new one.
  predicate StartsOn(limit: real, rs: seq<Request>, day: int) {
    PassesOn(limit, rs, day) && !Lives(Run(limit, rs[..|rs| - 1]), day, rs[|rs| - 1].readAt)
  }

  // How often that happened, the cents that passed since the last time, and those that passed before it.
  function Starts(limit: real, rs: seq<Request>, day: int): nat {
    var n := |rs|;
    if n == 0 then 0 else Starts(limit, rs[..n - 1], day) + (if StartsOn(limit, rs, day) then 1 else 0)
  }

  function Since(limit: real, rs: seq<Request>, day: int): int {
    var n := |rs|;
    if n == 0 then 0
    else if !PassesOn(limit, rs, day) then Since(limit, rs[..n - 1], day)
    else (if StartsOn(limit, rs, day) then 0 else Since(limit, rs[..n - 1], day)) + AsCents(rs[n - 1].amount)
  }

  function Before(limit: real, rs: seq<Request>, day: int): int {
    var n := |rs|;
    if n == 0 then 0
    else Before(limit, rs[..n - 1], day) + (if StartsOn(limit, rs, day) then Since(limit, rs[..n - 1], day) else 0)
  }

  // At any time of any day the counter holds the cents that passed since it was last started.
  lemma {:induction false} CounterCountsSinceStart(limit: real, rs: seq<Request>, day: int)
    ensures day in Run(limit, rs) <==> Starts(limit, rs, day) > 0
    ensures day in Run(limit, rs) ==> Run(limit, rs)[day].cents == Since(limit, rs, day)
    ensures Starts(limit, rs, day) == 0 ==> Since(limit, rs, day) == 0
    ensures Starts(limit, rs, day) <= 1 ==> Before(limit, rs, day) == 0
  {
    var n := |rs|;
    if n > 0 {
      CounterCountsSinceStart(limit, rs[..n - 1], day);
    }
  }

  lemma {:induction false} PassedAddsUp(limit: real, rs: seq<Request>, day: int)
    ensures Cents(PassedOn(limit, rs, day)) == Before(limit, rs, day) + Since(limit, rs, day)
  {
    var n := |rs|;
    if n > 0 {
      PassedAddsUp(limit, rs[..n - 1], day);
      PassedOnStep(limit, rs, day);
      CentsAppend(PassedOn(limit, rs[..n - 1], day), rs[n - 1].amount);
    }
  }

  // A request reads the sum of its day if and only if the counter is alive and nothing that counts passed
  // before it was last started, or the counter is gone and the sum is zero.
  lemma ReadsTheSumExactlyWhen(limit: real, rs: seq<Request>, day: int, at: Time)
    ensures var sum := Cents(PassedOn(limit, rs, day));
      Current(Run(limit, rs), day, at) == sum
      <==> if Lives(Run(limit, rs), day, at) then Before(limit, rs, day) == 0 else sum == 0
  {
    CounterCountsSinceStart(limit, rs, day);
    PassedAddsUp(limit, rs, day);
  }

  lemma OneMoreStart(most: int, starts: int)
    ensures most * (starts + 1) == most * starts + most
  {
  }

  lemma {:induction false} EachStartWithinLimit(limit: real, rs: seq<Request>, day: int, most: int)
    requires most == AsCents(limit)
    ensures Starts(limit, rs, day) > 0 ==>
      Since(limit, rs, day) <= most && Before(limit, rs, day) <= most * (Starts(limit, rs, day) - 1)
  {
    var n := |rs|;
    if n > 0 {
      EachStartWithinLimit(limit, rs[..n - 1], day, most);
      CounterCountsSinceStart(limit, rs[..n - 1], day);
      OneMoreStart(most, Starts(limit, rs[..n - 1], day) - 1);
    }
  }

  lemma OneStartWithinLimit(limit: real, rs: seq<Request>, day: int, most: int)
    requires most == AsCents(limit) && most >= 0 && Starts(limit, rs, day) <= 1
    ensures Cents(PassedOn(limit, rs, day)) <= most
  {
    PassedAddsUp(limit, rs, day);
    CounterCountsSinceStart(limit, rs, day);
    EachStartWithinLimit(limit, rs, day, most);
  }

  // What passes in a day is at most the limit for each start of its counter.
  lemma TotalWithinStarts(limit: real, rs: seq<Request>, day: int)
    ensures Cents(PassedOn(limit, rs, day)) <= AsCents(limit) * Starts(limit, rs, day)
  {
    PassedAddsUp(limit, rs, day);
    CounterCountsSinceStart(limit, rs, day);
    EachStartWithinLimit(limit, rs, day, AsCents(limit));
    OneMoreStart(AsCents(limit), Starts(limit, rs, day) - 1);
  }

  // ----- When a counter is started again -----

  // The counter of a day lives beyond 23:59:58.
  lemma {:induction false} ExpiresLate(limit: real, rs: seq<Request>, day: int, at: Time)
    requires Timely(rs, at) && day in Run(limit, rs)
    ensures Run(limit, rs)[day].expiresAt > day * 86400000000 + 86398000000
  {
    var n := |rs|;
    var r := rs[n - 1];
    if PassesOn(limit, rs, day) {
      ExpiryNearMidnight(r.ttlAt);
      DayNeverFalls(r.now, r.ttlAt);
    } else {
      ExpiresLate(limit, rs[..n - 1], day, at);
    }
  }

  // So only a request behind 23:59:58 can find it gone.
  lemma RestartIsLate(limit: real, rs: seq<Request>, day: int, at: Time)
    requires |rs| > 0 && Timely(rs, at) && StartsOn(limit, rs, day)
    requires Starts(limit, rs[..|rs| - 1], day) > 0
    ensures !InTime(day, rs[|rs| - 1].readAt)
  {
    var n := |rs|;
    CounterCountsSinceStart(limit, rs[..n - 1], day);
    ExpiresLate(limit, rs[..n - 1], day, at);
  }

  lemma {:induction false} NoRestartInTime(limit: real, rs: seq<Request>, day: int, at: Time)
    requires Timely(rs, at) && InTime(day, at)
    ensures Starts(limit, rs, day) <= 1
  {
    var n := |rs|;
    if n > 0 {
      NoRestartInTime(limit, rs[..n - 1], day, at);
      if StartsOn(limit, rs, day) && Starts(limit, rs[..n - 1], day) > 0 {
        RestartIsLate(limit, rs, day, at);
      }
    }
  }

  // Until 23:59:58 the counter a request reads is the sum of the cents that passed that day.
  lemma CounterReadsTheSum(limit: real, rs: seq<Request>, day: int, at: Time)
    requires Timely(rs, at) && InTime(day, at)
    ensures Current(Run(limit, rs), day, at) == Cents(PassedOn(limit, rs, day))
  {
    NoRestartInTime(limit, rs, day, at);
    CounterCountsSinceStart(limit, rs, day);
    PassedAddsUp(limit, rs, day);
    if day in Run(limit, rs) {
      ExpiresLate(limit, rs, day, at);
    }
  }

  // And it passes if and only if its cents and that sum are within the limit together.
  lemma PassesExactlyWhen(limit: real, rs: seq<Request>, r: Request)
    requires Timely(rs, r.readAt) && InTime(DayOf(r.now), r.readAt)
    ensures Passed(limit, rs + [r])
      <==> Cents(PassedOn(limit, rs, DayOf(r.now))) + AsCents(r.amount) <= AsCents(limit)
  {
    assert (rs + [r])[..|rs|] == rs;
    CounterReadsTheSum(limit, rs, DayOf(r.now), r.readAt);
  }

  // Until 23:59:58 what passed in a day never exceeds the limit in cents.
  lemma NeverOverLimit(limit: real, rs: seq<Request>, day: int, at: Time)
    requires Timely(rs, at) && InTime(day, at) && AsCents(limit) >= 0
    ensures Cents(PassedOn(limit, rs, day)) <= AsCents(limit)
  {
    NoRestartInTime(limit, rs, day, at);
    OneStartWithinLimit(limit, rs, day, AsCents(limit));
  }

  // The true total of n amounts is within n / 2 cents of their cents.
  lemma {:induction false} RoundingError(amounts: seq<real>)
    ensures -(|amounts| as real) / 2.0 <= Total(amounts) * 100.0 - Cents(amounts) as real <= |amounts| as real / 2.0
  {
    var n := |amounts|;
    if n > 0 {
      RoundingError(amounts[..n - 1]);
      CentsAreClose(amounts[n - 1]);
      assert Total(amounts) * 100.0 == Total(amounts[..n - 1]) * 100.0 + amounts[n - 1] * 100.0;
    }
  }

  predicate WholeCents(amount: real) {
    amount * 100.0 == (amount * 100.0).Floor as real
  }

  // It is equal to them when every amount is a whole number of cents.
  lemma {:induction false} WholeCentsAreExact(amounts: seq<real>)
    requires forall i | 0 <= i < |amounts| :: WholeCents(amounts[i])
    ensures Total(amounts) * 100.0 == Cents(amounts) as real
  {
    var n := |amounts|;
    if n > 0 {
      WholeCentsAreExact(amounts[..n - 1]);
      CentsAreClose(amounts[n - 1]);
      assert WholeCents(amounts[n - 1]);
      assert Total(amounts) * 100.0 == Total(amounts[..n - 1]) * 100.0 + amounts[n - 1] * 100.0;
    }
  }

  // The amounts that were chosen, oldest first.
  function Chosen(amounts: seq<real>, chosen: seq<bool>): seq<real>
    requires |chosen| == |amounts|
  {
    var n := |amounts|;
    if n == 0 then []
    else Chosen(amounts[..n - 1], chosen[..n - 1]) + (if chosen[n - 1] then [amounts[n - 1]] else [])
  }

  lemma {:induction false} ChosenIsLess(amounts: seq<real>, chosen: seq<bool>)
    requires |chosen| == |amounts| && forall i | 0 <= i < |amounts| :: amounts[i] >= 0.0
    ensures Total(Chosen(amounts, chosen)) <= Total(amounts)
  {
    var n := |amounts|;
    if n > 0 {
      ChosenIsLess(amounts[..n - 1], chosen[..n - 1]);
      var before := Chosen(amounts[..n - 1], chosen[..n - 1]);
      if chosen[n - 1] {
        CentsAppend(before, amounts[n - 1]);
      } else {
        assert before + [] == before;
      }
    }
  }

  // Whichever of the requests that passed go on to become payments, the day's total of these payments
  // stays within the limit for each start of the counter, up to half a cent for each request that passed.
  lemma CreatedStaysWithinStarts(limit: real, rs: seq<Request>, day: int, created: seq<bool>)
    requires forall i | 0 <= i < |rs| :: rs[i].amount > 0.0
    requires |created| == |PassedOn(limit, rs, day)|
    ensures var passed := PassedOn(limit, rs, day);
      Total(Chosen(passed, created)) * 100.0
      <= (AsCents(limit) * Starts(limit, rs, day)) as real + |passed| as real / 2.0
  {
    var passed := PassedOn(limit, rs, day);
    PassedAreAmounts(limit, rs, day);
    ChosenIsLess(passed, created);
    TotalWithinStarts(limit, rs, day);
    RoundingError(passed);
  }

  // Until 23:59:58 that is the limit once.
  lemma CreatedStaysWithinLimit(limit: real, rs: seq<Request>, day: int, at: Time, created: seq<bool>)
    requires Timely(rs, at) && InTime(day, at) && AsCents(limit) >= 0
    requires forall i | 0 <= i < |rs| :: rs[i].amount > 0.0
    requires |created| == |PassedOn(limit, rs, day)|
    ensures var passed := PassedOn(limit, rs, day);
      Total(Chosen(passed, created)) * 100.0 <= AsCents(limit) as real + |passed| as real / 2.0
  {
    var passed := PassedOn(limit, rs, day);
    PassedAreAmounts(limit, rs, day);
    ChosenIsLess(passed, created);
    NeverOverLimit(limit, rs, day, at);
    RoundingError(passed);
  }

  lemma {:induction false} PassedAreAmounts(limit: real, rs: seq<Request>, day: int)
    requires forall i | 0 <= i < |rs| :: rs[i].amount > 0.0
    ensures forall i | 0 <= i < |PassedOn(limit, rs, day)| :: PassedOn(limit, rs, day)[i] > 0.0
  {
    var n := |rs|;
    if n > 0 {
      PassedAreAmounts(limit, rs[..n - 1], day);
      PassedOnStep(limit, rs, day);
    }
  }

  // ----- The last two seconds of a day -----

  const NOON: Time := 43200000000
  const LATE: Time := 86399500000

  lemma NoonCounter()
    ensures var cs := Run(1.0, [Request(1.0, NOON, NOON, NOON, NOON)]);
      cs == map[0 := Counter(100, 86399000000)]
    ensures PassedOn(1.0, [Request(1.0, NOON, NOON, NOON, NOON)], 0) == [1.0]
  {
    var first := Request(1.0, NOON, NOON, NOON, NOON);
    assert [first][..0] == [];
    assert SecondsLeft(NOON) == 43199;
    assert Run(1.0, [first]) == After(map[], 1.0, first);
    PassedOnStep(1.0, [first], 0);
    assert PassedOn(1.0, [], 0) == [];
  }

  // The limit is exceeded then: a counter set at noon expires at 23:59:59, and a request half a second later
  // may spend the whole limit again.
  lemma LimitSpentTwice() returns (rs: seq<Request>, at: Time)
    ensures Timely(rs, at) && DayOf(at) == 0 && !InTime(0, at)
    ensures Cents(PassedOn(1.0, rs, 0)) == 200 && AsCents(1.0) == 100
  {
    var first, second := Request(1.0, NOON, NOON, NOON, NOON), Request(1.0, LATE, LATE, LATE, LATE);
    rs, at := [first, second], LATE;
    assert rs[..1] == [first];
    NoonCounter();
    assert Current(Run(1.0, rs[..1]), 0, LATE) == 0;
    PassedOnStep(1.0, rs, 0);
    CentsAppend([], 1.0);
    CentsAppend([1.0], 1.0);
    assert [] + [1.0] == [1.0];
  }
}
