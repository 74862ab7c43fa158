/** The fixed-window rate limiter over atomic counters that expire. */
module RateLimiter {
  import opened Contracts

  datatype Dimension = MERCHANT | CUSTOMER | ACCOUNT

  datatype Key = Key(dimension: Dimension, value: string, bucket: int)

  datatype Counter = Counter(count: nat, expiresAt: Option<Time>)

  type Counters = map<Key, Counter>

  // ----- The commands the counter store executes one at a time -----

  datatype Command = Incr(key: Key, at: Time) | Expire(key: Key, at: Time)

  predicate Alive(cs: Counters, key: Key, at: Time) {
    key in cs && (cs[key].expiresAt.Some? ==> at < cs[key].expiresAt.value)
  }

  // The reply to an increment.
  function NextCount(cs: Counters, key: Key, at: Time): nat {
    if Alive(cs, key, at) then cs[key].count + 1 else 1
  }

  function Execute(window: int, cs: Counters, c: Command): Counters {
    match c
    case Incr(key, at) =>
      cs[key := Counter(NextCount(cs, key, at), if Alive(cs, key, at) then cs[key].expiresAt else None)]
    case Expire(key, at) =>
      if Alive(cs, key, at) then cs[key := cs[key].(expiresAt := Some(at + window))] else cs
  }

  // ----- Any interleaving of the commands of any number of requests -----

  function Run(window: int, cmds: seq<Command>): Counters {
    if |cmds| == 0 then map[] else Execute(window, Run(window, cmds[..|cmds| - 1]), cmds[|cmds| - 1])
  }

  predicate InBucket(window: int, bucket: int, at: Time) {
    bucket * window <= at < (bucket + 1) * window
  }

  // Time does not run backwards, and no counter is touched before its bucket begins.
  ghost predicate Timely(window: int, cmds: seq<Command>) {
    && (forall i, j | 0 <= i < j < |cmds| :: cmds[i].at <= cmds[j].at)
    && (forall i | 0 <= i < |cmds| :: cmds[i].key.bucket * window <= cmds[i].at)
  }

  function Capped(n: nat, limit: int): nat {
    if limit < 0 then 0 else if n <= limit then n else limit
  }

  // The last command increments `key`, whenever it reaches the store.
  predicate Hits(cmds: seq<Command>, key: Key)
    requires |cmds| > 0
  {
    cmds[|cmds| - 1].Incr? && cmds[|cmds| - 1].key == key
  }

  // The last command finds a live counter.
  predicate FindsAlive(window: int, cmds: seq<Command>)
    requires |cmds| > 0
  {
    Alive(Run(window, cmds[..|cmds| - 1]), cmds[|cmds| - 1].key, cmds[|cmds| - 1].at)
  }

  predicate Passes(window: int, cmds: seq<Command>, limit: int)
    requires |cmds| > 0
  {
    var n := |cmds| - 1;
    NextCount(Run(window, cmds[..n]), cmds[n].key, cmds[n].at) <= limit
  }

  // All increments of a counter, those of them that were let through, how often it was started, and how
  // many increments there were since, the starting one included.
  function Increments(cmds: seq<Command>, key: Key): nat {
    var n := |cmds|;
    if n == 0 then 0 else Increments(cmds[..n - 1], key) + (if Hits(cmds, key) then 1 else 0)
  }

  function Passed(window: int, cmds: seq<Command>, key: Key, limit: int): nat {
    var n := |cmds|;
    if n == 0 then 0
    else Passed(window, cmds[..n - 1], key, limit) + (if Hits(cmds, key) && Passes(window, cmds, limit) then 1 else 0)
  }

  function Starts(window: int, cmds: seq<Command>, key: Key): nat {
    var n := |cmds|;
    if n == 0 then 0
    else Starts(window, cmds[..n - 1], key) + (if Hits(cmds, key) && !FindsAlive(window, cmds) then 1 else 0)
  }

  function Since(window: int, cmds: seq<Command>, key: Key): nat {
    var n := |cmds|;
    if n == 0 then 0
    else if !Hits(cmds, key) then Since(window, cmds[..n - 1], key)
    else if FindsAlive(window, cmds) then Since(window, cmds[..n - 1], key) + 1
    else 1
  }

  // In every interleaving a counter holds the increments since it was last started.
  lemma {:induction false} CounterCountsSinceStart(window: int, cmds: seq<Command>, key: Key)
    ensures key in Run(window, cmds) <==> Increments(cmds, key) > 0
    ensures key in Run(window, cmds) ==> Run(window, cmds)[key].count == Since(window, cmds, key) >= 1
    ensures Starts(window, cmds, key) > 0 <==> Increments(cmds, key) > 0
  {
    var n := |cmds|;
    if n > 0 {
      CounterCountsSinceStart(window, cmds[..n - 1], key);
    }
  }

  // The increments since the last start are all of them exactly if there was no restart.
  lemma {:induction false} SinceIsAllExactlyWhen(window: int, cmds: seq<Command>, key: Key)
    ensures Since(window, cmds, key) <= Increments(cmds, key)
    ensures Since(window, cmds, key) == Increments(cmds, key) <==> Starts(window, cmds, key) <= 1
  {
    var n := |cmds|;
    if n > 0 {
      SinceIsAllExactlyWhen(window, cmds[..n - 1], key);
      CounterCountsSinceStart(window, cmds[..n - 1], key);
    }
  }

  // The reply to an increment is one more than the increments since the last start, or one.
  lemma ReplyCountsSinceStart(window: int, cmds: seq<Command>, key: Key, limit: int)
    requires |cmds| > 0 && Hits(cmds, key)
    ensures Passes(window, cmds, limit) <==> Since(window, cmds, key) <= limit
  {
    CounterCountsSinceStart(window, cmds[..|cmds| - 1], key);
  }

  // What is let through, for a limit of at least one: everything while the total is within the limit, the
  // limit while there is no restart, and more than the limit otherwise.
  lemma {:induction false} PassedByStarts(window: int, cmds: seq<Command>, key: Key, limit: int)
    requires limit >= 1
    ensures var total, passed := Increments(cmds, key), Passed(window, cmds, key, limit);
      && (total <= limit ==> passed == total)
      && (total > limit && Starts(window, cmds, key) <= 1 ==> passed == limit)
      && (total > limit && Starts(window, cmds, key) > 1 ==> passed > limit)
  {
    var n := |cmds|;
    if n > 0 {
      var front := cmds[..n - 1];
      PassedByStarts(window, front, key, limit);
      if Hits(cmds, key) {
        ReplyCountsSinceStart(window, cmds, key, limit);
        SinceIsAllExactlyWhen(window, front, key);
        SinceIsAllExactlyWhen(window, cmds, key);
        CounterCountsSinceStart(window, front, key);
      }
    }
  }

  lemma {:induction false} NothingPasses(window: int, cmds: seq<Command>, key: Key, limit: int)
    requires limit <= 0
    ensures Passed(window, cmds, key, limit) == 0
  {
    if |cmds| > 0 {
      NothingPasses(window, cmds[..|cmds| - 1], key, limit);
    }
  }

  // In every interleaving, with late increments and all, the increments of one counter are let through up
  // to the limit and not beyond if and only if they are within the limit or the counter is never restarted.
  lemma PassedExactlyWhen(window: int, cmds: seq<Command>, key: Key, limit: int)
    ensures Passed(window, cmds, key, limit) == Capped(Increments(cmds, key), limit)
      <==> limit <= 0 || Increments(cmds, key) <= limit || Starts(window, cmds, key) <= 1
  {
    if limit <= 0 {
      NothingPasses(window, cmds, key, limit);
    } else {
      PassedByStarts(window, cmds, key, limit);
    }
  }

  // Each start lets at most the limit through.
  lemma {:induction false} PassedAtMost(window: int, cmds: seq<Command>, key: Key, limit: nat)
    ensures Passed(window, cmds, key, limit) <= limit * Starts(window, cmds, key)
    ensures Starts(window, cmds, key) > 0 ==>
      Passed(window, cmds, key, limit)
      <= limit * (Starts(window, cmds, key) - 1) + Capped(Since(window, cmds, key), limit)
  {
    var n := |cmds|;
    if n > 0 {
      var starts: int := Starts(window, cmds[..n - 1], key);
      PassedAtMost(window, cmds[..n - 1], key, limit);
      CounterCountsSinceStart(window, cmds[..n - 1], key);
      OneMoreStart(limit, starts);
      OneMoreStart(limit, starts - 1);
      if Hits(cmds, key) {
        ReplyCountsSinceStart(window, cmds, key, limit);
      }
    }
  }

  lemma OneMoreStart(limit: nat, starts: int)
    ensures limit * (starts + 1) == limit * starts + limit
  {
  }

  // ----- When a counter is restarted -----

  lemma BucketEnd(window: int, bucket: int)
    ensures (bucket + 1) * window == bucket * window + window
  {
  }

  // A counter that expires at all does so after its bucket.
  lemma {:induction false} ExpiresAfterBucket(window: int, cmds: seq<Command>, key: Key)
    requires Timely(window, cmds) && key in Run(window, cmds) && Run(window, cmds)[key].expiresAt.Some?
    ensures Run(window, cmds)[key].expiresAt.value >= (key.bucket + 1) * window
  {
    var n := |cmds|;
    if n > 0 {
      var front := cmds[..n - 1];
      BucketEnd(window, key.bucket);
      if key in Run(window, front) && Run(window, front)[key].expiresAt.Some? {
        ExpiresAfterBucket(window, front, key);
      }
    }
  }

  // So only an increment that reaches the store after its bucket can restart its counter.
  lemma RestartIsLate(window: int, cmds: seq<Command>, key: Key)
    requires Timely(window, cmds) && |cmds| > 0 && Hits(cmds, key) && !FindsAlive(window, cmds)
    requires Starts(window, cmds[..|cmds| - 1], key) > 0
    ensures cmds[|cmds| - 1].at >= (key.bucket + 1) * window
  {
    var front := cmds[..|cmds| - 1];
    CounterCountsSinceStart(window, front, key);
    ExpiresAfterBucket(window, front, key);
  }

  lemma {:induction false} NoRestartInBucket(window: int, cmds: seq<Command>, key: Key)
    requires Timely(window, cmds) && forall i | 0 <= i < |cmds| :: cmds[i].at < (key.bucket + 1) * window
    ensures Starts(window, cmds, key) <= 1
  {
    var n := |cmds|;
    if n > 0 {
      NoRestartInBucket(window, cmds[..n - 1], key);
      if Hits(cmds, key) && !FindsAlive(window, cmds) && Starts(window, cmds[..n - 1], key) > 0 {
        RestartIsLate(window, cmds, key);
      }
    }
  }

  // Until its bucket ends a counter never expires and counts exactly the increments so far.
  lemma CounterIsExact(window: int, cmds: seq<Command>, key: Key, now: Time)
    requires window >= 1 && Timely(window, cmds) && InBucket(window, key.bucket, now)
    requires forall i | 0 <= i < |cmds| :: cmds[i].at <= now
    ensures var cs := Run(window, cmds);
      if Increments(cmds, key) == 0 then key !in cs
      else Alive(cs, key, now) && cs[key].count == Increments(cmds, key)
  {
    CounterCountsSinceStart(window, cmds, key);
    NoRestartInBucket(window, cmds, key);
    SinceIsAllExactlyWhen(window, cmds, key);
    if key in Run(window, cmds) && Run(window, cmds)[key].expiresAt.Some? {
      ExpiresAfterBucket(window, cmds, key);
    }
  }

  // ----- The increments that reach the store in time -----

  predicate InTime(window: int, c: Command) {
    c.at < (c.key.bucket + 1) * window
  }

  function TriedInTime(window: int, cmds: seq<Command>, key: Key): nat {
    var n := |cmds|;
    if n == 0 then 0
    else TriedInTime(window, cmds[..n - 1], key) + (if Hits(cmds, key) && InTime(window, cmds[n - 1]) then 1 else 0)
  }

  function PassedInTime(window: int, cmds: seq<Command>, key: Key, limit: int): nat {
    var n := |cmds|;
    if n == 0 then 0
    else PassedInTime(window, cmds[..n - 1], key, limit)
         + (if Hits(cmds, key) && InTime(window, cmds[n - 1]) && Passes(window, cmds, limit) then 1 else 0)
  }

  lemma {:induction false} AllInTime(window: int, cmds: seq<Command>, key: Key, limit: int)
    requires forall i | 0 <= i < |cmds| :: cmds[i].at < (key.bucket + 1) * window
    ensures TriedInTime(window, cmds, key) == Increments(cmds, key)
    ensures PassedInTime(window, cmds, key, limit) == Passed(window, cmds, key, limit)
  {
    if |cmds| > 0 {
      AllInTime(window, cmds[..|cmds| - 1], key, limit);
    }
  }

  // In every interleaving the increments of one counter that reach the store in time are let through up
  // to the limit, and not beyond.
  lemma {:induction false} InTimePassedExactly(window: int, cmds: seq<Command>, key: Key, limit: int)
    requires window >= 1 && Timely(window, cmds)
    ensures PassedInTime(window, cmds, key, limit) == Capped(TriedInTime(window, cmds, key), limit)
  {
    var n := |cmds|;
    if n > 0 {
      if Hits(cmds, key) && InTime(window, cmds[n - 1]) {
        AllInTime(window, cmds, key, limit);
        NoRestartInBucket(window, cmds, key);
        PassedExactlyWhen(window, cmds, key, limit);
      } else {
        InTimePassedExactly(window, cmds[..n - 1], key, limit);
      }
    }
  }

  // ----- Any interval as long as the window -----

  // The last command is an increment for this client in lo .. hi, hi excluded, in any bucket.
  predicate Lands(cmds: seq<Command>, d: Dimension, value: string, lo: Time, hi: Time)
    requires |cmds| > 0
  {
    var c := cmds[|cmds| - 1];
    c.Incr? && lo <= c.at < hi && c.key.dimension == d && c.key.value == value
  }

  // All requests of one client that passed one dimension in that time, and those of them that were late.
  function PassedWithin(window: int, cmds: seq<Command>, d: Dimension, value: string, limit: int, lo: Time, hi: Time)
    : nat
  {
    var n := |cmds|;
    if n == 0 then 0
    else PassedWithin(window, cmds[..n - 1], d, value, limit, lo, hi)
         + (if Lands(cmds, d, value, lo, hi) && Passes(window, cmds, limit) then 1 else 0)
  }

  function LateWithin(window: int, cmds: seq<Command>, d: Dimension, value: string, limit: int, lo: Time, hi: Time)
    : nat
  {
    var n := |cmds|;
    if n == 0 then 0
    else LateWithin(window, cmds[..n - 1], d, value, limit, lo, hi)
         + (if Lands(cmds, d, value, lo, hi) && Passes(window, cmds, limit) && !InTime(window, cmds[n - 1])
            then 1 else 0)
  }

  lemma Monotone(a: int, b: int, window: int)
    requires window >= 1
    ensures a <= b ==> a * window <= b * window
  {
  }

  lemma OnlyTwoBuckets(window: int, b: int, lo: Time, c: int, at: Time)
    requires window >= 1 && InBucket(window, b, lo) && InBucket(window, c, at) && lo <= at < lo + window
    ensures c == b || c == b + 1
  {
    BucketEnd(window, b);
    BucketEnd(window, b + 1);
    Monotone(c + 1, b, window);
    Monotone(b + 2, c, window);
  }

  lemma {:induction false} SplitByBucket(window: int, cmds: seq<Command>, d: Dimension, value: string, limit: int,
                                         lo: Time, b: int)
    requires window >= 1 && InBucket(window, b, lo) && Timely(window, cmds)
    ensures PassedWithin(window, cmds, d, value, limit, lo, lo + window)
         <= PassedInTime(window, cmds, Key(d, value, b), limit)
            + PassedInTime(window, cmds, Key(d, value, b + 1), limit)
            + LateWithin(window, cmds, d, value, limit, lo, lo + window)
  {
    var n := |cmds|;
    if n > 0 {
      SplitByBucket(window, cmds[..n - 1], d, value, limit, lo, b);
      var c := cmds[n - 1];
      if Lands(cmds, d, value, lo, lo + window) && InTime(window, c) {
        OnlyTwoBuckets(window, b, lo, c.key.bucket, c.at);
      }
    }
  }

  // Any half-open interval as long as the window lets at most twice the limit through, besides what
  // passes late.
  lemma TwiceTheLimit(window: int, cmds: seq<Command>, d: Dimension, value: string, limit: nat, lo: Time)
    requires window >= 1 && Timely(window, cmds)
    ensures PassedWithin(window, cmds, d, value, limit, lo, lo + window)
         <= 2 * limit + LateWithin(window, cmds, d, value, limit, lo, lo + window)
  {
    var b := lo / window;
    assert InBucket(window, b, lo) by {
      assert lo == b * window + lo % window;
      BucketEnd(window, b);
    }
    SplitByBucket(window, cmds, d, value, limit, lo, b);
    InTimePassedExactly(window, cmds, Key(d, value, b), limit);
    InTimePassedExactly(window, cmds, Key(d, value, b + 1), limit);
  }

  // ----- Late increments -----

  // An increment that finds its counter expired starts it again: with a limit of one, two requests of
  // one bucket are let through.
  lemma LateIncrementPassesAgain(value: string) returns (cmds: seq<Command>)
    ensures Timely(10, cmds) && |cmds| == 3
    ensures forall i | 0 <= i < |cmds| :: cmds[i].key == Key(MERCHANT, value, 0)
    ensures cmds[0].Incr? && cmds[2].Incr?
    ensures Passes(10, cmds[..1], 1) && Passes(10, cmds[..3], 1)
  {
    var key := Key(MERCHANT, value, 0);
    cmds := [Incr(key, 0), Expire(key, 0), Incr(key, 10)];
    Three(cmds[0], cmds[1], cmds[2]);
  }

  // Being late is not enough for that: while the counter lives, a late increment is counted on.
  lemma LateIncrementIsCountedOn(value: string) returns (cmds: seq<Command>)
    ensures Timely(10, cmds) && |cmds| == 3
    ensures forall i | 0 <= i < |cmds| :: cmds[i].key == Key(MERCHANT, value, 0)
    ensures cmds[0].Incr? && cmds[2].Incr? && !InTime(10, cmds[2])
    ensures Passes(10, cmds[..1], 1) && !Passes(10, cmds[..3], 1)
  {
    var key := Key(MERCHANT, value, 0);
    cmds := [Incr(key, 9), Expire(key, 9), Incr(key, 15)];
    Three(cmds[0], cmds[1], cmds[2]);
  }

  lemma Three(a: Command, b: Command, c: Command)
    ensures var cmds := [a, b, c];
      && cmds[..1] == [a] && cmds[..3] == cmds && cmds[..3][..2] == [a, b]
      && Run(10, [a]) == Execute(10, map[], a) && Run(10, [a, b]) == Execute(10, Execute(10, map[], a), b)
  {
    assert [a][..0] == [] && [a, b][..1] == [a];
  }

  // ----- The service -----

  // An increment that was let through: where its command stands in the sequence, and for whom.
  datatype Grant = Grant(position: nat, dimension: Dimension, value: string)

  predicate IsGrant(window: int, cmds: seq<Command>, g: Grant, limit: int) {
    && g.position < |cmds| && cmds[g.position].Incr?
    && cmds[g.position].key.dimension == g.dimension && cmds[g.position].key.value == g.value
    && Passes(window, cmds[..g.position + 1], limit)
  }

  ghost predicate AreGrants(window: int, cmds: seq<Command>, grants: seq<Grant>, limits: Dimension -> int) {
    && (forall i, j | 0 <= i < j < |grants| :: grants[i].position < grants[j].position)
    && (forall i | 0 <= i < |grants| :: IsGrant(window, cmds, grants[i], limits(grants[i].dimension)))
  }

  lemma GrantsStay(window: int, cmds: seq<Command>, more: seq<Command>, grants: seq<Grant>, limits: Dimension -> int)
    requires AreGrants(window, cmds, grants, limits)
    ensures AreGrants(window, cmds + more, grants, limits)
  {
    forall i | 0 <= i < |grants| ensures IsGrant(window, cmds + more, grants[i], limits(grants[i].dimension)) {
      assert IsGrant(window, cmds, grants[i], limits(grants[i].dimension));
      assert (cmds + more)[..grants[i].position + 1] == cmds[..grants[i].position + 1];
    }
  }

  lemma OneMoreGrant(window: int, cmds: seq<Command>, c: Command, grants: seq<Grant>, limits: Dimension -> int)
    requires AreGrants(window, cmds, grants, limits) && c.Incr?
    requires Passes(window, cmds + [c], limits(c.key.dimension))
    ensures AreGrants(window, cmds + [c], grants + [Grant(|cmds|, c.key.dimension, c.key.value)], limits)
  {
    GrantsStay(window, cmds, [c], grants, limits);
    assert (cmds + [c])[..|cmds| + 1] == cmds + [c];
    forall i | 0 <= i < |grants| ensures grants[i].position < |cmds| {
      assert IsGrant(window, cmds, grants[i], limits(grants[i].dimension));
    }
  }

  lemma RunStep(window: int, cmds: seq<Command>, c: Command)
    ensures Run(window, cmds + [c]) == Execute(window, Run(window, cmds), c)
  {
    assert (cmds + [c])[..|cmds|] == cmds;
  }

  // The reply to an increment is the number of increments since the last start.
  lemma ReplyIsSince(window: int, cmds: seq<Command>, key: Key, at: Time)
    ensures NextCount(Run(window, cmds), key, at) == Since(window, cmds + [Incr(key, at)], key)
    ensures forall limit ::
      Passes(window, cmds + [Incr(key, at)], limit) <==> Since(window, cmds + [Incr(key, at)], key) <= limit
  {
    var all := cmds + [Incr(key, at)];
    assert all[..|all| - 1] == cmds;
    CounterCountsSinceStart(window, cmds, key);
    forall limit ensures Passes(window, all, limit) <==> Since(window, all, key) <= limit {
      ReplyCountsSinceStart(window, all, key, limit);
    }
  }

  // Which of the two commands of a check fails, if any.
  datatype Fault = Fine | IncrFails | ExpireFails

  // What surrounds one check: the commands of other requests in front of its increment and of its expiry,
  // and when the store executes the two.
  datatype Surroundings = Surroundings(
    before: seq<Command>, incrAt: Time, between: seq<Command>, expireAt: Time, fault: Fault)

  // A check whose increment is the last of `cmds` lets its request through; so does the failure of a command.
  predicate LetsThrough(window: int, cmds: seq<Command>, key: Key, limit: int, fault: Fault) {
    match fault
    case Fine => Since(window, cmds, key) <= limit
    case IncrFails => true
    case ExpireFails => Since(window, cmds, key) <= limit || Since(window, cmds, key) == 1
  }

  datatype Check = Check(dimension: Dimension, value: string, limit: int)

  function KeyOf(c: Check, bucket: int): Key {
    Key(c.dimension, c.value, bucket)
  }

  // The increment of a check is the last of `cmds`, which the store has executed.
  predicate Reached(executed: seq<Command>, c: Check, bucket: int, cmds: seq<Command>, env: Surroundings) {
    env.fault != IncrFails ==>
      cmds <= executed && |cmds| > 0 && cmds[|cmds| - 1] == Incr(KeyOf(c, bucket), env.incrAt)
  }

  // An answered check that lets its request through is among the grants.
  predicate Counted(granted: seq<Grant>, window: int, c: Check, bucket: int, cmds: seq<Command>, env: Surroundings) {
    env.fault == Fine && Through(window, c, bucket, cmds, env) && |cmds| > 0 ==>
      Grant(|cmds| - 1, c.dimension, c.value) in granted
  }

  predicate Through(window: int, c: Check, bucket: int, cmds: seq<Command>, env: Surroundings) {
    LetsThrough(window, cmds, KeyOf(c, bucket), c.limit, env.fault)
  }

  // ----- How much a service lets through -----

  // The grants of one client whose increments the store executed in lo .. hi, hi excluded.
  function GrantsWithin(cmds: seq<Command>, grants: seq<Grant>, d: Dimension, value: string, lo: Time, hi: Time): nat {
    var n := |grants|;
    if n == 0 then 0
    else GrantsWithin(cmds, grants[..n - 1], d, value, lo, hi)
         + (if grants[n - 1].dimension == d && grants[n - 1].value == value && grants[n - 1].position < |cmds|
               && lo <= cmds[grants[n - 1].position].at < hi then 1 else 0)
  }

  lemma {:induction false} PassedGrows(window: int, cmds: seq<Command>, k: nat, d: Dimension, value: string, limit: int,
                                       lo: Time, hi: Time)
    requires k <= |cmds|
    ensures PassedWithin(window, cmds[..k], d, value, limit, lo, hi)
         <= PassedWithin(window, cmds, d, value, limit, lo, hi)
  {
    var n := |cmds|;
    if k == n {
      assert cmds[..k] == cmds;
    } else {
      PassedGrows(window, cmds[..n - 1], k, d, value, limit, lo, hi);
      assert cmds[..n - 1][..k] == cmds[..k];
    }
  }

  lemma {:induction false} SameGrants(cmds: seq<Command>, k: nat, grants: seq<Grant>, d: Dimension, value: string,
                                      lo: Time, hi: Time)
    requires k <= |cmds| && forall i | 0 <= i < |grants| :: grants[i].position < k
    ensures GrantsWithin(cmds[..k], grants, d, value, lo, hi) == GrantsWithin(cmds, grants, d, value, lo, hi)
  {
    var n := |grants|;
    if n > 0 {
      SameGrants(cmds, k, grants[..n - 1], d, value, lo, hi);
    }
  }

  lemma EarlierGrants(window: int, cmds: seq<Command>, grants: seq<Grant>, limits: Dimension -> int)
    requires AreGrants(window, cmds, grants, limits) && |grants| > 0
    ensures var n := |grants| - 1; var p := grants[n].position;
      p < |cmds| && AreGrants(window, cmds[..p], grants[..n], limits)
      && forall i | 0 <= i < n :: grants[..n][i].position < p
  {
    var n := |grants| - 1;
    var p := grants[n].position;
    assert IsGrant(window, cmds, grants[n], limits(grants[n].dimension));
    forall i | 0 <= i < n ensures IsGrant(window, cmds[..p], grants[..n][i], limits(grants[..n][i].dimension)) {
      assert IsGrant(window, cmds, grants[i], limits(grants[i].dimension));
      assert cmds[..p][..grants[i].position + 1] == cmds[..grants[i].position + 1];
    }
  }

  // Every grant is an increment that passed.
  lemma {:induction false} GrantsPassed(window: int, cmds: seq<Command>, grants: seq<Grant>, limits: Dimension -> int,
                                        d: Dimension, value: string, lo: Time, hi: Time)
    requires AreGrants(window, cmds, grants, limits)
    ensures GrantsWithin(cmds, grants, d, value, lo, hi) <= PassedWithin(window, cmds, d, value, limits(d), lo, hi)
    decreases |grants|
  {
    var n := |grants| - 1;
    if n >= 0 {
      var p := grants[n].position;
      EarlierGrants(window, cmds, grants, limits);
      GrantsPassed(window, cmds[..p], grants[..n], limits, d, value, lo, hi);
      SameGrants(cmds, p, grants[..n], d, value, lo, hi);
      LastGrantPassed(window, cmds, grants[n], limits, d, value, lo, hi);
      PassedGrows(window, cmds, p + 1, d, value, limits(d), lo, hi);
    }
  }

  lemma LastGrantPassed(window: int, cmds: seq<Command>, g: Grant, limits: Dimension -> int, d: Dimension,
                        value: string, lo: Time, hi: Time)
    requires IsGrant(window, cmds, g, limits(g.dimension))
    ensures PassedWithin(window, cmds[..g.position + 1], d, value, limits(d), lo, hi)
         >= PassedWithin(window, cmds[..g.position], d, value, limits(d), lo, hi)
            + (if g.dimension == d && g.value == value && lo <= cmds[g.position].at < hi then 1 else 0)
  {
    assert cmds[..g.position + 1][..g.position] == cmds[..g.position];
  }

  class RateLimiterService {
    const merchantLimit: int
    const customerLimit: int
    const accountLimit: int
    const window: int
    var counters: Counters
    ghost var executed: seq<Command>   // what the store executed so far, for all requests
    ghost var granted: seq<Grant>      // the increments of this service that were let through

    ghost predicate Valid()
      reads this
    {
      counters == Run(window, executed) && AreGrants(window, executed, granted, LimitOf)
    }

    function LimitOf(d: Dimension): int {
      match d
      case MERCHANT => merchantLimit
      case CUSTOMER => customerLimit
      case ACCOUNT => accountLimit
    }

    constructor (merchantLimit: int, customerLimit: int, accountLimit: int, window: int)
      ensures this.merchantLimit == merchantLimit && this.customerLimit == customerLimit
      ensures this.accountLimit == accountLimit && this.window == window && counters == map[]
      ensures Valid() && executed == [] && granted == []
    {
      this.merchantLimit, this.customerLimit, this.accountLimit := merchantLimit, customerLimit, accountLimit;
      this.window := window;
      counters, executed, granted := map[], [], [];
    }

    // The store executes one command of this request, or those of others.
    method Send(c: Command)
      requires Valid()
      modifies this`counters, this`executed
      ensures Valid() && executed == old(executed) + [c]
    {
      RunStep(window, executed, c);
      GrantsStay(window, executed, [c], granted, LimitOf);
      counters := Execute(window, counters, c);
      executed := executed + [c];
    }

    // In any half-open interval as long as the window the service lets at most twice the limit of its dimension
    // through for each merchant, customer and account, besides what is let through late, whatever the other
    // requests do.
    lemma LetsAtMostTwice(d: Dimension, value: string, lo: Time)
      requires Valid() && window >= 1 && Timely(window, executed)
      requires merchantLimit >= 0 && customerLimit >= 0 && accountLimit >= 0
      ensures var limit := match d case MERCHANT => merchantLimit case CUSTOMER => customerLimit
                                   case ACCOUNT => accountLimit;
        GrantsWithin(executed, granted, d, value, lo, lo + window)
        <= 2 * limit + LateWithin(window, executed, d, value, limit, lo, lo + window)
    {
      GrantsPassed(window, executed, granted, LimitOf, d, value, lo, lo + window);
      TwiceTheLimit(window, executed, d, value, LimitOf(d), lo);
    }

    method Await(cmds: seq<Command>)
      requires Valid()
      modifies this`counters, this`executed
      ensures Valid() && executed == old(executed) + cmds
    {
      for i := 0 to |cmds|
        invariant Valid() && executed == old(executed) + cmds[..i]
      {
        Send(cmds[i]);
        assert cmds[..i + 1] == cmds[..i] + [cmds[i]];
      }
      assert cmds[..|cmds|] == cmds;
    }

    // The store's reply is the number of increments since the counter was last started.
    method Increment(key: Key, at: Time, limit: int) returns (current: nat)
      requires Valid() && limit == LimitOf(key.dimension)
      modifies this
      ensures Valid() && executed == old(executed) + [Incr(key, at)] && current == Since(window, executed, key)
      ensures granted == old(granted) + (if current <= limit
                                         then [Grant(|old(executed)|, key.dimension, key.value)] else [])
    {
      current := NextCount(counters, key, at);
      ReplyIsSince(window, executed, key, at);
      ghost var grants := granted;
      if current <= limit {
        OneMoreGrant(window, executed, Incr(key, at), granted, LimitOf);
        grants := granted + [Grant(|executed|, key.dimension, key.value)];
      }
      Send(Incr(key, at));
      granted := grants;
    }

    // One check. Its increment passes exactly when the increments since the counter was last started, itself
    // included, are within the limit; only the one that starts the counter sets its expiry.
    method Allow(d: Dimension, value: string, bucket: int, limit: int, env: Surroundings) returns (allowed: bool)
      requires Valid() && limit == LimitOf(d)
      modifies this
      ensures Valid()
      ensures var key := Key(d, value, bucket); var cmds := old(executed) + [Incr(key, env.incrAt)];
        && allowed == LetsThrough(window, cmds, key, limit, env.fault)
        && (allowed
            <==> env.fault == IncrFails || Since(window, cmds, key) <= limit
                 || (env.fault == ExpireFails && Since(window, cmds, key) == 1))
        && (env.fault == IncrFails ==> executed == old(executed) && granted == old(granted))
        && (env.fault != IncrFails ==>
              && executed == cmds + (if Since(window, cmds, key) != 1 then []
                                     else env.between
                                          + (if env.fault == ExpireFails then [] else [Expire(key, env.expireAt)]))
              && granted == old(granted) + (if Since(window, cmds, key) <= limit
                                            then [Grant(|old(executed)|, d, value)] else []))
    {
      if env.fault == IncrFails {
        return true;
      }
      var key := Key(d, value, bucket);
      var current := Increment(key, env.incrAt, limit);
      if current == 1 {
        Await(env.between);
        if env.fault == ExpireFails {
          return true;
        }
        Send(Expire(key, env.expireAt));
      }
      return current <= limit;
    }

    // `end` is what the store had executed up to the increment.
    method CheckOne(c: Check, bucket: int, env: Surroundings) returns (allowed: bool, ghost end: seq<Command>)
      requires Valid() && c.limit == LimitOf(c.dimension)
      modifies this
      ensures Valid() && old(executed) <= executed && old(granted) <= granted
      ensures Counted(granted, window, c, bucket, end, env)
      ensures Reached(executed, c, bucket, end, env) && allowed == Through(window, c, bucket, end, env)
    {
      Await(env.before);
      end := executed + [Incr(KeyOf(c, bucket), env.incrAt)];
      allowed := Allow(c.dimension, c.value, bucket, c.limit, env);
    }

    // Merchant, customer and account are checked in this order against their own limits, and the first check
    // that does not let the request through ends it. `at[k]` is what the store had executed up to the increment
    // of check `k`, the commands of other requests included.
    method Enforce(merchant: string, customer: string, account: string, clock: Time, env: nat -> Surroundings)
      returns (refused: Option<Dimension>, ghost at: seq<seq<Command>>)
      requires Valid() && window >= 1
      modifies this
      ensures Valid() && 1 <= |at| <= 3 && old(executed) <= executed && old(granted) <= granted
      ensures var checks := [Check(MERCHANT, merchant, merchantLimit), Check(CUSTOMER, customer, customerLimit),
                             Check(ACCOUNT, account, accountLimit)];
        var bucket, last := clock / window, |at| - 1;
        && (forall k: nat | k < |at| :: Reached(executed, checks[k], bucket, at[k], env(k)))
        && (forall k: nat | k < |at| :: Counted(granted, window, checks[k], bucket, at[k], env(k)))
        && (forall k: nat | k < last :: Through(window, checks[k], bucket, at[k], env(k)))
        && (refused == if Through(window, checks[last], bucket, at[last], env(last)) then None
                       else Some(checks[last].dimension))
        && (refused.None? ==> |at| == 3)
    {
      var bucket := clock / window;
      var checks := [Check(MERCHANT, merchant, merchantLimit), Check(CUSTOMER, customer, customerLimit),
                     Check(ACCOUNT, account, accountLimit)];
      at := [];
      var k := 0;
      while k < |checks|
        invariant Valid() && 0 <= k <= |checks| && |at| == k
        invariant old(executed) <= executed && old(granted) <= granted
        invariant forall j: nat | j < k :: Reached(executed, checks[j], bucket, at[j], env(j))
        invariant forall j: nat | j < k :: Counted(granted, window, checks[j], bucket, at[j], env(j))
        invariant forall j: nat | j < k :: Through(window, checks[j], bucket, at[j], env(j))
      {
        var allowed;
        ghost var end;
        allowed, end := CheckOne(checks[k], bucket, env(k));
        at := at + [end];
        if !allowed {
          return Some(checks[k].dimension), at;
        }
        k := k + 1;
      }
      return None, at;
    }
  }
}
