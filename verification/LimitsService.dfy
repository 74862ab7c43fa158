/** The limits service: amount, daily and velocity checks over the shared store, with the database as the
    fallback when the store fails. */
module LimitsService {
  import opened Contracts
  import DailyLimit
  import Velocity

  datatype Rail = PIX | BOLETO | TED | CARD

  datatype Account = Account(customer: string, rail: Rail)

  datatype Policy = Policy(
    minAmount: real, maxAmount: real, dailyLimit: real, velocityCount: int, velocityWindow: nat)

  datatype Refusal = MissingPolicy | BelowMinimum | AboveMaximum | DailyLimitExceeded | VelocityLimitExceeded

  // Which command of a check the store fails to answer, if any.
  datatype DailyFault = DailyFine | GetFails | SetFails
  datatype VelocityFault = VelocityFine | TrimFails | CountFails | AddFails | ArmFails

  // The clock reads of one daily check, and the answer of the database should it be asked.
  datatype DailyData = DailyData(now: Time, readAt: Time, ttlAt: Time, setAt: Time, fault: DailyFault, dbTotal: real)
  datatype VelocityData = VelocityData(request: Velocity.Request, fault: VelocityFault, dbCount: nat)

  predicate DailyLets(cs: DailyLimit.Counters, limit: real, amount: real, d: DailyData) {
    var lets := DailyLimit.Lets(cs, limit, amount, DailyLimit.DayOf(d.now), d.readAt);
    match d.fault
    case DailyFine => lets
    case GetFails => d.dbTotal + amount <= limit
    case SetFails => lets && d.dbTotal + amount <= limit
  }

  function DailyAfter(cs: DailyLimit.Counters, limit: real, amount: real, d: DailyData): DailyLimit.Counters {
    if d.fault == DailyFine
    then DailyLimit.After(cs, limit, DailyLimit.Request(amount, d.now, d.readAt, d.ttlAt, d.setAt))
    else cs
  }

  // The store's answer to a velocity check, if it answers to the end.
  datatype Answer = Answered(count: Option<nat>) | NoAnswer

  function OfDatabase(p: Policy, d: VelocityData): Option<nat> {
    if d.dbCount >= p.velocityCount then None else Some(d.dbCount + 1)
  }

  // The size of the window with this request in it, or nothing if it is refused.
  function VelocityCount(w: Velocity.Window, p: Policy, d: VelocityData): Option<nat> {
    var count := |Velocity.Counted(w, p.velocityWindow, d.request).members|;
    match d.fault
    case VelocityFine => if count < p.velocityCount then Some(count + 1) else None
    case TrimFails => OfDatabase(p, d)
    case CountFails => OfDatabase(p, d)
    case AddFails => if count < p.velocityCount then OfDatabase(p, d) else None
    case ArmFails => if count < p.velocityCount then OfDatabase(p, d) else None
  }

  function VelocityAfter(w: Velocity.Window, p: Policy, d: VelocityData): Velocity.Window {
    var admits := Velocity.Admits(w, p.velocityCount, p.velocityWindow, d.request);
    match d.fault
    case VelocityFine => Velocity.After(w, p.velocityCount, p.velocityWindow, d.request)
    case TrimFails => w
    case CountFails => Velocity.TrimmedKey(w, p.velocityWindow, d.request)
    case AddFails => Velocity.Counted(w, p.velocityWindow, d.request)
    case ArmFails =>
      if admits then Velocity.AddedKey(w, p.velocityWindow, d.request)
      else Velocity.Counted(w, p.velocityWindow, d.request)
  }

  // ----- The checks against the logs of the store, and of the database -----

  // A check the store answers is one more request of the log of the daily limit, and lets it through exactly
  // when that one passes.
  lemma DailyCheckIsRun(limit: real, rs: seq<DailyLimit.Request>, amount: real, d: DailyData, r: DailyLimit.Request)
    requires d.fault == DailyFine && r == DailyLimit.Request(amount, d.now, d.readAt, d.ttlAt, d.setAt)
    ensures DailyAfter(DailyLimit.Run(limit, rs), limit, amount, d) == DailyLimit.Run(limit, rs + [r])
    ensures DailyLets(DailyLimit.Run(limit, rs), limit, amount, d) <==> DailyLimit.Passed(limit, rs + [r])
  {
    assert (rs + [r])[..|rs|] == rs;
  }

  // The same for the velocity limit.
  lemma VelocityCheckIsRun(p: Policy, rs: seq<Velocity.Request>, d: VelocityData, w: Velocity.Window)
    requires d.fault == VelocityFine && w == Velocity.Key(p.velocityCount, p.velocityWindow, rs)
    ensures VelocityAfter(w, p, d) == Velocity.Key(p.velocityCount, p.velocityWindow, rs + [d.request])
  {
    assert (rs + [d.request])[..|rs|] == rs;
  }

  // The count is that of the log and one more, while no request straddles.
  lemma VelocityCountIsThatOfTheLog(p: Policy, rs: seq<Velocity.Request>, d: VelocityData, w: Velocity.Window,
                                    ofLog: nat)
    requires d.fault == VelocityFine && Velocity.Timely(rs + [d.request]) && p.velocityWindow >= 1
    requires w == Velocity.Key(p.velocityCount, p.velocityWindow, rs)
    requires Velocity.NoneStraddles(p.velocityCount, p.velocityWindow, rs)
    requires !Velocity.Straddles(p.velocityCount, p.velocityWindow, rs, d.request)
    requires ofLog == Velocity.Within(Velocity.Log(p.velocityCount, p.velocityWindow, rs),
                                      d.request.now - p.velocityWindow, d.request.now)
    ensures VelocityCount(w, p, d) == if ofLog < p.velocityCount then Some(ofLog + 1) else None
  {
    Velocity.CountIsThatOfTheLog(p.velocityCount, p.velocityWindow, rs, d.request);
  }

  // The amounts that pass while the store is down and every request that passed is in the database.
  function DatabasePassed(limit: real, cs: DailyLimit.Counters, amounts: seq<real>, ds: seq<DailyData>): seq<real>
    requires |ds| == |amounts|
  {
    var n := |amounts|;
    if n == 0 then []
    else
      var front := DatabasePassed(limit, cs, amounts[..n - 1], ds[..n - 1]);
      var d := ds[n - 1].(fault := GetFails, dbTotal := DailyLimit.Total(front));
      if DailyLets(cs, limit, amounts[n - 1], d) then front + [amounts[n - 1]] else front
  }

  // Their total stays within the limit, and each passes exactly when it fits.
  lemma {:induction false} DatabaseStaysWithinLimit(limit: real, cs: DailyLimit.Counters, amounts: seq<real>,
                                                    ds: seq<DailyData>)
    requires |ds| == |amounts| && limit >= 0.0
    ensures DailyLimit.Total(DatabasePassed(limit, cs, amounts, ds)) <= limit
    ensures |amounts| > 0 ==>
      var n := |amounts| - 1; var front := DatabasePassed(limit, cs, amounts[..n], ds[..n]);
      DatabasePassed(limit, cs, amounts, ds)
      == if DailyLimit.Total(front) + amounts[n] <= limit then front + [amounts[n]] else front
  {
    var n := |amounts|;
    if n > 0 {
      DatabaseStaysWithinLimit(limit, cs, amounts[..n - 1], ds[..n - 1]);
      DailyLimit.CentsAppend(DatabasePassed(limit, cs, amounts[..n - 1], ds[..n - 1]), amounts[n - 1]);
    }
  }

  // The times of the requests that pass the velocity limit while the store is down and every request that
  // passed is in the database, which counts those of the window, its start included.
  function DatabaseCount(log: seq<Time>, p: Policy, now: Time): nat {
    Velocity.Within(log, now - (p.velocityWindow + 1), now)
  }

  function DatabaseLog(w: Velocity.Window, p: Policy, vs: seq<VelocityData>): seq<Time> {
    var n := |vs|;
    if n == 0 then []
    else
      var front := DatabaseLog(w, p, vs[..n - 1]);
      var now := vs[n - 1].request.now;
      var v := vs[n - 1].(fault := TrimFails, dbCount := DatabaseCount(front, p, now));
      if VelocityCount(w, p, v).Some? then front + [now] else front
  }

  lemma DatabaseAdmits(p: Policy, front: seq<Time>, now: Time)
    requires Velocity.Gated(front, p.velocityCount, p.velocityWindow + 1) && Velocity.AllUpTo(front, now)
    requires DatabaseCount(front, p, now) < p.velocityCount
    ensures Velocity.Gated(front + [now], p.velocityCount, p.velocityWindow + 1)
  {
    Velocity.GatedAppend(front, p.velocityCount, p.velocityWindow + 1, now);
  }

  lemma DatabaseLogStep(w: Velocity.Window, p: Policy, vs: seq<VelocityData>, front: seq<Time>, now: Time)
    requires |vs| > 0 && front == DatabaseLog(w, p, vs[..|vs| - 1]) && now == vs[|vs| - 1].request.now
    ensures DatabaseLog(w, p, vs) == if DatabaseCount(front, p, now) < p.velocityCount then front + [now] else front
  {
  }

  lemma {:induction false} DatabaseLogIsGated(w: Velocity.Window, p: Policy, vs: seq<VelocityData>, now: Time)
    requires forall i, j | 0 <= i < j < |vs| :: vs[i].request.now <= vs[j].request.now
    requires |vs| > 0 ==> vs[|vs| - 1].request.now <= now
    ensures Velocity.Gated(DatabaseLog(w, p, vs), p.velocityCount, p.velocityWindow + 1)
    ensures Velocity.AllUpTo(DatabaseLog(w, p, vs), now)
  {
    var n := |vs|;
    if n > 0 {
      var t := vs[n - 1].request.now;
      DatabaseLogIsGated(w, p, vs[..n - 1], t);
      DatabaseLogStep(w, p, vs, DatabaseLog(w, p, vs[..n - 1]), t);
      OneMoreGated(p, DatabaseLog(w, p, vs[..n - 1]), DatabaseLog(w, p, vs), t, now);
    }
  }

  lemma OneMoreGated(p: Policy, front: seq<Time>, log: seq<Time>, t: Time, now: Time)
    requires log == if DatabaseCount(front, p, t) < p.velocityCount then front + [t] else front
    requires Velocity.Gated(front, p.velocityCount, p.velocityWindow + 1) && Velocity.AllUpTo(front, t) && t <= now
    ensures Velocity.Gated(log, p.velocityCount, p.velocityWindow + 1) && Velocity.AllUpTo(log, now)
  {
    if DatabaseCount(front, p, t) < p.velocityCount {
      DatabaseAdmits(p, front, t);
    }
  }

  // Every closed interval as long as the window holds at most the limit of them.
  lemma DatabaseWindowIsBounded(w: Velocity.Window, p: Policy, vs: seq<VelocityData>, s: Time)
    requires forall i, j | 0 <= i < j < |vs| :: vs[i].request.now <= vs[j].request.now
    ensures Velocity.Within(DatabaseLog(w, p, vs), s - 1, s + p.velocityWindow) <= Velocity.AtLeastZero(p.velocityCount)
  {
    DatabaseLogIsGated(w, p, vs, if |vs| == 0 then 0 else vs[|vs| - 1].request.now);
    Velocity.GatedIsBounded(DatabaseLog(w, p, vs), p.velocityCount, p.velocityWindow + 1, s - 1);
  }

  // ----- The policy of a rail, cached for a while -----

  datatype Cached = Cached(policy: Policy, expiresAt: Time)

  type Cache = map<Rail, Cached>

  // What a lookup meets: when it asks the cache and whether that answers with a readable policy, when the
  // database answers and with which policy, if any, and when the cache is filled and whether it takes it.
  datatype Lookup = Lookup(
    rail: Rail, now: Time, readable: bool, answeredAt: Time, stored: Option<Policy>, filledAt: Time, writable: bool)

  predicate Hit(cache: Cache, x: Lookup) {
    x.readable && x.rail in cache && x.now < cache[x.rail].expiresAt
  }

  function Found(cache: Cache, x: Lookup): Option<Policy> {
    if Hit(cache, x) then Some(cache[x.rail].policy) else x.stored
  }

  function CacheAfter(cache: Cache, ttl: nat, x: Lookup): Cache {
    if !Hit(cache, x) && x.stored.Some? && x.writable
    then cache[x.rail := Cached(x.stored.value, x.filledAt + ttl)]
    else cache
  }

  function CacheOf(ttl: nat, xs: seq<Lookup>): Cache {
    var n := |xs|;
    if n == 0 then map[] else CacheAfter(CacheOf(ttl, xs[..n - 1]), ttl, xs[n - 1])
  }

  // What the cache holds was once in the database.
  lemma {:induction false} CachedWasStored(ttl: nat, xs: seq<Lookup>, rail: Rail) returns (j: nat)
    requires rail in CacheOf(ttl, xs)
    ensures j < |xs| && xs[j].rail == rail && xs[j].stored.Some?
    ensures CacheOf(ttl, xs)[rail] == Cached(xs[j].stored.value, xs[j].filledAt + ttl)
  {
    var n := |xs|;
    var front := CacheOf(ttl, xs[..n - 1]);
    if rail in front && CacheOf(ttl, xs)[rail] == front[rail] {
      j := CachedWasStored(ttl, xs[..n - 1], rail);
    } else {
      j := n - 1;
    }
  }

  // A policy that is applied is the one the database has, or had less than the time to live and the delay
  // of filling the cache ago.
  lemma AppliedPolicyIsRecent(ttl: nat, xs: seq<Lookup>, x: Lookup) returns (j: nat)
    requires Found(CacheOf(ttl, xs), x).Some?
    ensures j <= |xs| && (xs + [x])[j].rail == x.rail && (xs + [x])[j].stored == Found(CacheOf(ttl, xs), x)
    ensures j < |xs| ==> x.now - xs[j].answeredAt < ttl + (xs[j].filledAt - xs[j].answeredAt)
  {
    if Hit(CacheOf(ttl, xs), x) {
      j := CachedWasStored(ttl, xs, x.rail);
    } else {
      j := |xs|;
    }
  }

  // ----- The checks of one request -----

  // How the checks end for a policy `p`, and what they leave of the counters.
  predicate Enforced(a: Account, p: Policy, amount: real, d: DailyData, v: VelocityData,
                     daily: map<Account, DailyLimit.Counters>, velocity: map<Account, Velocity.Window>,
                     daily': map<Account, DailyLimit.Counters>, velocity': map<Account, Velocity.Window>,
                     refusal: Option<Refusal>, count: nat)
  {
    if amount < p.minAmount then refusal == Some(BelowMinimum) && daily' == daily && velocity' == velocity
    else if amount > p.maxAmount then refusal == Some(AboveMaximum) && daily' == daily && velocity' == velocity
    else
      && daily' == daily[a := DailyAfter(CountersOf(daily, a), p.dailyLimit, amount, d)]
      && (if !DailyLets(CountersOf(daily, a), p.dailyLimit, amount, d)
          then refusal == Some(DailyLimitExceeded) && velocity' == velocity
          else
            && velocity' == velocity[a := VelocityAfter(MembersOf(velocity, a), p, v)]
            && match VelocityCount(MembersOf(velocity, a), p, v)
               case Some(n) => refusal.None? && count == n
               case None => refusal == Some(VelocityLimitExceeded))
  }

  function CountersOf(daily: map<Account, DailyLimit.Counters>, a: Account): DailyLimit.Counters {
    if a in daily then daily[a] else map[]
  }

  function MembersOf(velocity: map<Account, Velocity.Window>, a: Account): Velocity.Window {
    if a in velocity then velocity[a] else Velocity.EMPTY_WINDOW
  }

  class LimitsService {
    var daily: map<Account, DailyLimit.Counters>
    var velocity: map<Account, Velocity.Window>
    var policies: Cache
    const cacheTtl: nat

    constructor (cacheTtl: nat)
      ensures daily == map[] && velocity == map[] && policies == map[] && this.cacheTtl == cacheTtl
    {
      daily, velocity, policies := map[], map[], map[];
      this.cacheTtl := cacheTtl;
    }

    function DailyOf(a: Account): DailyLimit.Counters
      reads this
    {
      CountersOf(daily, a)
    }

    function WindowOf(a: Account): Velocity.Window
      reads this
    {
      MembersOf(velocity, a)
    }

    // The policy comes first; the checks run in this order, and the first that refuses ends them.
    method Enforce(a: Account, amount: real, x: Lookup, d: DailyData, v: VelocityData)
      returns (refusal: Option<Refusal>, policy: Option<Policy>, count: nat)
      requires x.rail == a.rail
      modifies this
      ensures policy == Found(old(policies), x) && policies == CacheAfter(old(policies), cacheTtl, x)
      ensures match policy
              case None => refusal == Some(MissingPolicy) && daily == old(daily) && velocity == old(velocity)
              case Some(p) =>
                Enforced(a, p, amount, d, v, old(daily), old(velocity), daily, velocity, refusal, count)
    {
      count := 0;
      policy := GetPolicy(x);
      if policy.None? {
        return Some(MissingPolicy), policy, 0;
      }
      refusal, count := EnforcePolicy(a, policy.value, amount, d, v);
    }

    method GetPolicy(x: Lookup) returns (policy: Option<Policy>)
      modifies this`policies
      ensures policy == Found(old(policies), x) && policies == CacheAfter(old(policies), cacheTtl, x)
      ensures if x.readable && x.rail in old(policies) && x.now < old(policies)[x.rail].expiresAt
              then policy == Some(old(policies)[x.rail].policy) && policies == old(policies)
              else policy == x.stored
                   && policies == if x.stored.Some? && x.writable
                                  then old(policies)[x.rail := Cached(x.stored.value, x.filledAt + cacheTtl)]
                                  else old(policies)
    {
      if x.readable && x.rail in policies && x.now < policies[x.rail].expiresAt {
        return Some(policies[x.rail].policy);
      }
      if x.stored.None? {
        return None;
      }
      if x.writable {
        policies := policies[x.rail := Cached(x.stored.value, x.filledAt + cacheTtl)];
      }
      return x.stored;
    }

    method EnforcePolicy(a: Account, p: Policy, amount: real, d: DailyData, v: VelocityData)
      returns (refusal: Option<Refusal>, count: nat)
      modifies this`daily, this`velocity
      ensures Enforced(a, p, amount, d, v, old(daily), old(velocity), daily, velocity, refusal, count)
      ensures refusal == Some(BelowMinimum) <==> amount < p.minAmount
      ensures refusal == Some(AboveMaximum) <==> p.minAmount <= amount && p.maxAmount < amount
      ensures refusal == Some(DailyLimitExceeded)
        <==> p.minAmount <= amount <= p.maxAmount && !DailyLets(old(DailyOf(a)), p.dailyLimit, amount, d)
      ensures refusal == Some(VelocityLimitExceeded)
        <==> && p.minAmount <= amount <= p.maxAmount && DailyLets(old(DailyOf(a)), p.dailyLimit, amount, d)
             && VelocityCount(old(WindowOf(a)), p, v).None?
      ensures refusal != Some(MissingPolicy)
      ensures amount < p.minAmount || p.maxAmount < amount ==> daily == old(daily)
      ensures refusal.Some? && refusal != Some(VelocityLimitExceeded) ==> velocity == old(velocity)
      ensures refusal.None? ==> Some(count) == VelocityCount(old(WindowOf(a)), p, v)
    {
      count := 0;
      if amount < p.minAmount {
        return Some(BelowMinimum), 0;
      }
      if amount > p.maxAmount {
        return Some(AboveMaximum), 0;
      }
      var ok := EnforceDailyLimit(a, p.dailyLimit, amount, d);
      if !ok {
        return Some(DailyLimitExceeded), 0;
      }
      var n := EnforceVelocityLimit(a, p, v);
      if n.None? {
        return Some(VelocityLimitExceeded), 0;
      }
      return None, n.value;
    }

    method EnforceDailyLimit(a: Account, limit: real, amount: real, d: DailyData) returns (ok: bool)
      modifies this`daily
      ensures ok == DailyLets(old(DailyOf(a)), limit, amount, d)
      ensures var within := DailyLimit.Current(old(DailyOf(a)), DailyLimit.DayOf(d.now), d.readAt)
                            + DailyLimit.AsCents(amount) <= DailyLimit.AsCents(limit);
        match d.fault
        case DailyFine => ok <==> within
        case GetFails => ok <==> d.dbTotal + amount <= limit
        case SetFails => ok <==> within && d.dbTotal + amount <= limit
      ensures daily == old(daily)[a := DailyAfter(old(DailyOf(a)), limit, amount, d)]
      ensures d.fault != DailyFine || !ok ==> daily[a] == old(DailyOf(a))
    {
      var cs := DailyOf(a);
      daily := daily[a := cs];
      if d.fault != GetFails {
        var projected := DailyLimit.Current(cs, DailyLimit.DayOf(d.now), d.readAt) + DailyLimit.AsCents(amount);
        if projected > DailyLimit.AsCents(limit) {
          return false;
        }
        var ttl := DailyLimit.SecondsLeft(d.ttlAt);
        if d.fault == DailyFine {
          var counter := DailyLimit.Counter(projected, d.setAt + ttl * DailyLimit.SECOND);
          daily := daily[a := cs[DailyLimit.DayOf(d.now) := counter]];
          return true;
        }
      }
      return d.dbTotal + amount <= limit;
    }

    method EnforceVelocityLimit(a: Account, p: Policy, v: VelocityData) returns (count: Option<nat>)
      modifies this`velocity
      ensures count == VelocityCount(old(WindowOf(a)), p, v)
      ensures var inWindow := |Velocity.Counted(old(WindowOf(a)), p.velocityWindow, v.request).members|;
        match v.fault
        case VelocityFine =>
          (count.Some? <==> inWindow < p.velocityCount) && (count.Some? ==> count.value == inWindow + 1)
        case TrimFails => count == if v.dbCount < p.velocityCount then Some(v.dbCount + 1) else None
        case CountFails => count == if v.dbCount < p.velocityCount then Some(v.dbCount + 1) else None
        case AddFails => count.Some? <==> inWindow < p.velocityCount && v.dbCount < p.velocityCount
        case ArmFails => count.Some? <==> inWindow < p.velocityCount && v.dbCount < p.velocityCount
      ensures velocity == old(velocity)[a := VelocityAfter(old(WindowOf(a)), p, v)]
      ensures v.fault == TrimFails ==> velocity[a] == old(WindowOf(a))
      ensures v.fault == CountFails || v.fault == AddFails || (count.None? && v.fault == VelocityFine) ==>
        velocity[a].members <= old(WindowOf(a)).members
    {
      var answer, w := AskStore(WindowOf(a), p, v);
      velocity := velocity[a := w];
      if answer.Answered? {
        return answer.count;
      }
      if v.dbCount >= p.velocityCount {
        return None;
      }
      return Some(v.dbCount + 1);
    }

    // The commands on the sorted set, up to the first that fails.
    method AskStore(key: Velocity.Window, p: Policy, v: VelocityData) returns (answer: Answer, w: Velocity.Window)
      ensures w == VelocityAfter(key, p, v)
      ensures match answer
              case Answered(count) => VelocityCount(key, p, v) == count
              case NoAnswer => VelocityCount(key, p, v) == OfDatabase(p, v)
    {
      var r := v.request;
      w := key;
      if v.fault == TrimFails {
        return NoAnswer, w;
      }
      w := Velocity.Trimmed(Velocity.Seen(w, r.trimAt), r.now - p.velocityWindow);
      assert w == Velocity.TrimmedKey(key, p.velocityWindow, r);
      if v.fault == CountFails {
        return NoAnswer, w;
      }
      w := Velocity.Seen(w, r.countAt);
      assert w == Velocity.Counted(key, p.velocityWindow, r);
      var n := |w.members|;
      if n >= p.velocityCount {
        return Answered(None), w;
      }
      if v.fault == AddFails {
        return NoAnswer, w;
      }
      w := AddAndArm(key, w, p, v);
      answer := if v.fault == ArmFails then NoAnswer else Answered(Some(n + 1));
    }

    method AddAndArm(ghost key: Velocity.Window, counted: Velocity.Window, p: Policy, v: VelocityData)
      returns (w: Velocity.Window)
      requires counted == Velocity.Counted(key, p.velocityWindow, v.request)
      requires Velocity.Admits(key, p.velocityCount, p.velocityWindow, v.request)
      ensures w == if v.fault == ArmFails then Velocity.AddedKey(key, p.velocityWindow, v.request)
                   else Velocity.After(key, p.velocityCount, p.velocityWindow, v.request)
    {
      var r := v.request;
      w := Velocity.Added(Velocity.Seen(counted, r.addAt), Velocity.Member(r.now, |counted.members|));
      if v.fault != ArmFails {
        w := Velocity.Armed(Velocity.Seen(w, r.armedAt), r.armedAt + p.velocityWindow);
      }
    }
  }
}
