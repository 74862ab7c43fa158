/** Enough iterations drain the outbox, however often the provider and the bus fail. */
module Draining {
  import opened Contracts
  import opened Store
  import opened Ledger
  import opened SingleWorker
  import opened Liveness
  import opened Tick

  predicate Drained(t: Tables) {
    forall i | 0 <= i < |t.events| :: t.events[i].status != Pending
  }

  lemma BatchTakesSomething(t: Tables, fanout: bool, now: Time, limit: nat, batch: seq<Fetched>, i: nat)
    requires IsBatch(t, fanout, now, limit, batch) && limit >= 1
    requires i < |t.events| && Due(t.events[i], fanout, now)
    ensures |batch| >= 1
  {
    if !Takes(batch, i) {
      assert |batch| == limit;
    }
  }

  // An iteration that takes nothing changes nothing.
  lemma IdleTick(cfg: Settings, t: Tables, d: TickData, t': Tables)
    requires Sound(cfg, t) && IsTick(cfg, t, d, t') && Measure(cfg, t') >= Measure(cfg, t)
    ensures |d.batch| == 0 && |d.fanout| == 0 && t' == t
  {
    TickWorks(cfg, t, d, t');
  }

  // One due event is enough for an iteration to make progress.
  lemma DueTickWorks(cfg: Settings, t: Tables, d: TickData, t': Tables, i: nat)
    requires Sound(cfg, t) && IsTick(cfg, t, d, t') && cfg.publishes && d.now <= d.fanoutNow
    requires i < |t.events| && t.events[i].status == Pending && t.events[i].nextAttemptAt <= d.now
    ensures Measure(cfg, t') < Measure(cfg, t)
  {
    if Measure(cfg, t') >= Measure(cfg, t) {
      IdleTick(cfg, t, d, t');
      if IsFanout(t.events[i].kind) {
        assert AfterRequests(cfg, t, d) == t;
        BatchTakesSomething(t, true, d.fanoutNow, cfg.batchSize, d.fanout, i);
      } else {
        BatchTakesSomething(t, false, d.now, cfg.batchSize, d.batch, i);
      }
      assert false;
    }
  }

  // ----- The clock of the iterations -----

  // Everything happens until `until`, and nothing is put off by more than `longest`.
  ghost predicate DoneBy(d: TickData, until: Time, longest: nat) {
    && d.now <= d.fanoutNow <= until
    && (forall i | 0 <= i < |d.charges| :: d.charges[i].at.now <= until && d.charges[i].delay <= longest)
    && (forall i | 0 <= i < |d.deliveries| :: d.deliveries[i].at.now <= until && d.deliveries[i].delay <= longest)
  }

  // Iterations follow one another with fetch times at least `pause` apart.
  ghost predicate Paced(ds: seq<TickData>, pause: nat, longest: nat) {
    && (forall k | 0 <= k < |ds| :: ds[k].now <= ds[k].fanoutNow)
    && (forall k | 0 <= k < |ds| - 1 :: DoneBy(ds[k], ds[k + 1].now, longest) && ds[k].now + pause <= ds[k + 1].now)
  }

  ghost predicate DueBy(t: Tables, bound: Time) {
    forall i | 0 <= i < |t.events| && t.events[i].status == Pending :: t.events[i].nextAttemptAt <= bound
  }

  lemma HandleOneDueBy(cfg: Settings, t: Tables, f: Fetched, c: Charge, bound: Time)
    requires DueBy(t, bound) && c.at.now + c.delay <= bound
    ensures DueBy(HandleOne(cfg, t, f, c), bound)
  {
  }

  lemma {:induction false} HandleAllDueBy(cfg: Settings, t: Tables, batch: seq<Fetched>, charges: seq<Charge>,
                                          bound: Time)
    requires |charges| == |batch| && DueBy(t, bound)
    requires forall i | 0 <= i < |charges| :: charges[i].at.now + charges[i].delay <= bound
    ensures DueBy(HandleAll(cfg, t, batch, charges), bound)
    decreases |batch|
  {
    var n := |batch|;
    if n > 0 {
      HandleAllDueBy(cfg, t, batch[..n - 1], charges[..n - 1], bound);
      HandleOneDueBy(cfg, HandleAll(cfg, t, batch[..n - 1], charges[..n - 1]), batch[n - 1], charges[n - 1], bound);
    }
  }

  lemma PublishOneDueBy(cfg: Settings, t: Tables, f: Fetched, d: Delivery, bound: Time)
    requires DueBy(t, bound) && d.at.now + d.delay <= bound
    ensures DueBy(PublishOne(cfg, t, f, d), bound)
  {
  }

  lemma {:induction false} PublishAllDueBy(cfg: Settings, t: Tables, batch: seq<Fetched>, ds: seq<Delivery>,
                                           bound: Time)
    requires |ds| == |batch| && DueBy(t, bound)
    requires forall i | 0 <= i < |ds| :: ds[i].at.now + ds[i].delay <= bound
    ensures DueBy(PublishAll(cfg, t, batch, ds), bound)
    decreases |batch|
  {
    var n := |batch|;
    if n > 0 {
      PublishAllDueBy(cfg, t, batch[..n - 1], ds[..n - 1], bound);
      PublishOneDueBy(cfg, PublishAll(cfg, t, batch[..n - 1], ds[..n - 1]), batch[n - 1], ds[n - 1], bound);
    }
  }

  // Whatever fails and is put off, no event waits for longer than `longest` behind an iteration.
  lemma TickDueBy(cfg: Settings, t: Tables, d: TickData, t': Tables, until: Time, longest: nat)
    requires IsTick(cfg, t, d, t') && DoneBy(d, until, longest) && DueBy(t, until + longest)
    ensures DueBy(t', until + longest)
  {
    HandleAllDueBy(cfg, t, d.batch, d.charges, until + longest);
    PublishAllDueBy(cfg, AfterRequests(cfg, t, d), d.fanout, d.deliveries, until + longest);
  }

  // Iterations in a row, without the API in between.
  ghost predicate Ticking(cfg: Settings, ts: seq<Tables>, ds: seq<TickData>, pause: nat, longest: nat) {
    && |ts| == |ds| + 1 && cfg.publishes && Paced(ds, pause, longest)
    && Sound(cfg, ts[0]) && (|ds| > 0 ==> DueBy(ts[0], ds[0].now + longest))
    && forall k | 0 <= k < |ds| :: IsTick(cfg, ts[k], ds[k], ts[k + 1])
  }

  lemma {:induction false} TickingKeeps(cfg: Settings, ts: seq<Tables>, ds: seq<TickData>, pause: nat, longest: nat,
                                        k: nat)
    requires Ticking(cfg, ts, ds, pause, longest) && k <= |ds|
    ensures Sound(cfg, ts[k]) && Measure(cfg, ts[k]) >= 0
    ensures k < |ds| ==> DueBy(ts[k], ds[k].now + longest)
  {
    if k > 0 {
      TickingKeeps(cfg, ts, ds, pause, longest, k - 1);
      TickWorks(cfg, ts[k - 1], ds[k - 1], ts[k]);
      if k < |ds| {
        assert DoneBy(ds[k - 1], ds[k - 1 + 1].now, longest);
        TickDueBy(cfg, ts[k - 1], ds[k - 1], ts[k], ds[k].now, longest);
      }
    }
    MeasureNonNegative(cfg, ts[k]);
  }

  lemma {:induction false} MeasureNeverGrows(cfg: Settings, ts: seq<Tables>, ds: seq<TickData>, pause: nat,
                                             longest: nat, j: nat, k: nat)
    requires Ticking(cfg, ts, ds, pause, longest) && j <= k <= |ds|
    ensures Measure(cfg, ts[k]) <= Measure(cfg, ts[j])
    ensures Measure(cfg, ts[k]) == Measure(cfg, ts[j]) ==> ts[k] == ts[j]
    decreases k
  {
    if j < k {
      MeasureNeverGrows(cfg, ts, ds, pause, longest, j, k - 1);
      TickingKeeps(cfg, ts, ds, pause, longest, k - 1);
      TickWorks(cfg, ts[k - 1], ds[k - 1], ts[k]);
      if Measure(cfg, ts[k]) == Measure(cfg, ts[j]) {
        IdleTick(cfg, ts[k - 1], ds[k - 1], ts[k]);
      }
    }
  }

  lemma {:induction false} ClockAdvances(ds: seq<TickData>, pause: nat, longest: nat, j: nat, n: nat)
    requires Paced(ds, pause, longest) && j + n < |ds|
    ensures ds[j + n].now >= ds[j].now + n * pause
  {
    if n > 0 {
      ClockAdvances(ds, pause, longest, j, n - 1);
      assert ds[j + n - 1].now + pause <= ds[j + n - 1 + 1].now;
      assert n * pause == (n - 1) * pause + pause;
    }
  }

  // An event that is due by the time of the fetch is not left alone.
  lemma OverdueTickWorks(cfg: Settings, t: Tables, d: TickData, t': Tables)
    requires Sound(cfg, t) && IsTick(cfg, t, d, t') && cfg.publishes && d.now <= d.fanoutNow
    requires !Drained(t) && DueBy(t, d.now)
    ensures Measure(cfg, t') < Measure(cfg, t)
  {
    var i :| 0 <= i < |t.events| && t.events[i].status == Pending;
    DueTickWorks(cfg, t, d, t', i);
  }

  // Once the clock has passed the longest delay, something has happened.
  lemma WorksWithin(cfg: Settings, ts: seq<Tables>, ds: seq<TickData>, pause: nat, longest: nat, rounds: nat, k: nat,
                    m: nat)
    requires Ticking(cfg, ts, ds, pause, longest) && longest <= rounds * pause && k + rounds == m < |ds|
    requires !Drained(ts[k])
    ensures Measure(cfg, ts[m + 1]) < Measure(cfg, ts[k])
  {
    MeasureNeverGrows(cfg, ts, ds, pause, longest, k, m);
    TickingKeeps(cfg, ts, ds, pause, longest, k);
    TickingKeeps(cfg, ts, ds, pause, longest, m);
    ClockAdvances(ds, pause, longest, k, rounds);
    if ts[m] == ts[k] {
      OverdueTickWorks(cfg, ts[m], ds[m], ts[m + 1]);
    } else {
      TickWorks(cfg, ts[m], ds[m], ts[m + 1]);
    }
  }

  // ----- The work left along the iterations -----

  function Measures(cfg: Settings, ts: seq<Tables>): seq<int> {
    seq(|ts|, k requires 0 <= k < |ts| => Measure(cfg, ts[k]))
  }

  // Numbers that never grow and fall to zero in steps of at most `rounds + 1` places.
  ghost predicate Falls(ms: seq<int>, rounds: nat) {
    && (forall k | 0 <= k < |ms| :: ms[k] >= 0)
    && (forall j, k | 0 <= j < k < |ms| :: ms[k] <= ms[j])
    && (forall j, k | 0 <= j < k < |ms| && k == j + rounds + 1 && ms[j] > 0 :: ms[k] < ms[j])
  }

  lemma MeasuresFall(cfg: Settings, ts: seq<Tables>, ds: seq<TickData>, pause: nat, longest: nat, rounds: nat)
    requires Ticking(cfg, ts, ds, pause, longest) && longest <= rounds * pause
    ensures Falls(Measures(cfg, ts), rounds)
  {
    forall k | 0 <= k < |ts| ensures Measure(cfg, ts[k]) >= 0 {
      TickingKeeps(cfg, ts, ds, pause, longest, k);
    }
    forall j, k | 0 <= j < k < |ts| ensures Measure(cfg, ts[k]) <= Measure(cfg, ts[j]) {
      MeasureNeverGrows(cfg, ts, ds, pause, longest, j, k);
    }
    forall j, k | 0 <= j < k < |ts| && k == j + rounds + 1 && Measure(cfg, ts[j]) > 0
      ensures Measure(cfg, ts[k]) < Measure(cfg, ts[j])
    {
      if Drained(ts[j]) {
        DrainedMeasure(cfg, ts[j]);
        assert false;
      }
      WorksWithin(cfg, ts, ds, pause, longest, rounds, j, k - 1);
    }
  }

  lemma {:induction false} ReachesZero(ms: seq<int>, rounds: nat, k: nat, work: nat)
    requires Falls(ms, rounds) && k < |ms| && ms[k] <= work && k + work * (rounds + 1) < |ms|
    ensures ms[|ms| - 1] == 0
    decreases work
  {
    if work > 0 {
      assert work * (rounds + 1) == (work - 1) * (rounds + 1) + (rounds + 1);
      assert (work - 1) * (rounds + 1) >= 0;
      var next := k + rounds + 1;
      assert ms[k] > 0 ==> ms[next] < ms[k];
      ReachesZero(ms, rounds, next, work - 1);
    }
  }

  lemma {:induction false} NoWeight(cfg: Settings, es: seq<Event>)
    requires forall e | e in es :: e.status != Pending
    ensures Sum(es, e => Weight(cfg, e)) == 0
  {
    if |es| > 0 {
      assert es[|es| - 1] in es;
      NoWeight(cfg, es[..|es| - 1]);
    }
  }

  lemma DrainedMeasure(cfg: Settings, t: Tables)
    requires Drained(t)
    ensures Measure(cfg, t) == 0
  {
    NoWeight(cfg, t.events);
  }

  // With the API quiet, a publisher configured, fetches at least `pause` apart and delays of at most
  // `longest`, the outbox is empty after (ceil(longest / pause) + 1) iterations for each unit of work: no
  // event is pending, and no payment RECEIVED or PROCESSING, whatever the provider and the bus do.
  lemma Drains(cfg: Settings, ts: seq<Tables>, ds: seq<TickData>, pause: nat, longest: nat)
    requires Ticking(cfg, ts, ds, pause, longest) && pause >= 1
    requires |ds| >= Measure(cfg, ts[0]) * ((longest + pause - 1) / pause + 1)
    ensures Drained(ts[|ds|])
    ensures forall id | id in ts[|ds|].payments ::
      ts[|ds|].payments[id].status == IN_REVIEW || Terminal(ts[|ds|].payments[id].status)
  {
    var rounds := (longest + pause - 1) / pause;
    RoundsSuffice(longest, pause);
    MeasureNonNegative(cfg, ts[0]);
    var ms := Measures(cfg, ts);
    MeasuresFall(cfg, ts, ds, pause, longest, rounds);
    ReachesZero(ms, rounds, 0, Measure(cfg, ts[0]));
    TickingKeeps(cfg, ts, ds, pause, longest, |ds|);
    MeasureNonNegative(cfg, ts[|ds|]);
    NothingPendingNothingOpen(cfg, ts[|ds|]);
  }

  lemma RoundsSuffice(longest: nat, pause: nat)
    requires pause >= 1
    ensures 0 <= (longest + pause - 1) / pause && longest <= (longest + pause - 1) / pause * pause
  {
    var n := longest + pause - 1;
    assert n == n / pause * pause + n % pause;
  }
}
