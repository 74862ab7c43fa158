/** One uninterrupted iteration of a worker as a function of the tables and of what the provider, the
    event bus and the clock answered; it is a run of the state machine, and enough of them drain the
    outbox. */
module Tick {
  import opened Contracts
  import opened Store
  import opened Ledger
  import opened Protocol
  import opened SingleWorker
  import opened Liveness

  // What the environment contributes to one handled request, and to one published event.
  datatype Charge = Charge(result: CallResult, calls: nat, delay: nat, at: Stamp)
  datatype Delivery = Delivery(published: bool, delay: nat, at: Stamp)

  function HandleOne(cfg: Settings, t: Tables, f: Fetched, c: Charge): Tables {
    HandleRequest(cfg, t, f, Lookup(t, f.row.aggregate), c.result, c.delay, c.at)
  }

  // A call that fails in any other way than as a processor error, as one refused by an open breaker does,
  // ends the payment at once: there is no retry, however few attempts were made.
  lemma OtherFailureIsFinal(cfg: Settings, t: Tables, f: Fetched, c: Charge)
    requires Sound(cfg, t) && Current(t, f, false) && c.result == OtherFailure
    ensures var id := f.row.aggregate; var t' := HandleOne(cfg, t, f, c);
      && id in t.payments && (t.payments[id].status == RECEIVED || t.payments[id].status == PROCESSING)
      && id in t'.payments && t'.payments[id].status == FAILED && t'.payments[id].lastError == Some(UNEXPECTED)
      && |t'.events| == |t.events| + 1 && t'.events[f.id].status == OutboxStatus.Failed
      && t'.events[|t.events|] == NewEvent(id, PaymentFailed, c.at)
  {
    PendingMeansOpen(cfg, t, f.id);
    var e, tail, p := RequestEffect(cfg, t, f, c.result, c.delay, c.at);
  }

  function HandleAll(cfg: Settings, t: Tables, batch: seq<Fetched>, charges: seq<Charge>): Tables
    requires |charges| == |batch|
  {
    var n := |batch|;
    if n == 0 then t
    else HandleOne(cfg, HandleAll(cfg, t, batch[..n - 1], charges[..n - 1]), batch[n - 1], charges[n - 1])
  }

  function PublishOne(cfg: Settings, t: Tables, f: Fetched, d: Delivery): Tables {
    HandleFanout(cfg, t, f, d.published, d.delay, d.at)
  }

  function PublishAll(cfg: Settings, t: Tables, batch: seq<Fetched>, deliveries: seq<Delivery>): Tables
    requires |deliveries| == |batch|
  {
    var n := |batch|;
    if n == 0 then t
    else PublishOne(cfg, PublishAll(cfg, t, batch[..n - 1], deliveries[..n - 1]), batch[n - 1], deliveries[n - 1])
  }

  datatype TickData = TickData(
    now: Time, batch: seq<Fetched>, charges: seq<Charge>,
    fanoutNow: Time, fanout: seq<Fetched>, deliveries: seq<Delivery>)

  function AfterRequests(cfg: Settings, t: Tables, d: TickData): Tables
    requires |d.charges| == |d.batch|
  {
    HandleAll(cfg, t, d.batch, d.charges)
  }

  // `t'` is what one iteration makes of `t`.
  ghost predicate IsTick(cfg: Settings, t: Tables, d: TickData, t': Tables) {
    && |d.charges| == |d.batch| && |d.deliveries| == |d.fanout|
    && IsBatch(t, false, d.now, cfg.batchSize, d.batch)
    && (if cfg.publishes
        then IsBatch(AfterRequests(cfg, t, d), true, d.fanoutNow, cfg.batchSize, d.fanout)
        else d.fanout == [])
    && t' == PublishAll(cfg, AfterRequests(cfg, t, d), d.fanout, d.deliveries)
  }

  // ----- What an iteration keeps and what it works off -----

  lemma HandleOneStep(cfg: Settings, t: Tables, todo: seq<Fetched>, c: Charge)
    requires Sound(cfg, t) && Live(t, todo, false) && todo != []
    ensures var t' := HandleOne(cfg, t, todo[0], c);
      Sound(cfg, t') && Live(t', todo[1..], false) && Measure(cfg, t') < Measure(cfg, t)
  {
    var f := todo[0];
    assert Current(t, f, false);
    RequestKeepsSound(cfg, t, f, c.result, c.delay, c.at);
    RequestShrinks(cfg, t, f, c.result, c.delay, c.at);
    var e, tail, p := RequestEffect(cfg, t, f, c.result, c.delay, c.at);
    TailStaysLive(t, HandleOne(cfg, t, f, c), todo, false, e, tail);
  }

  lemma {:induction false} HandleAllWorks(cfg: Settings, t: Tables, batch: seq<Fetched>, charges: seq<Charge>, k: nat)
    requires Sound(cfg, t) && Live(t, batch, false) && |charges| == |batch| && k <= |batch|
    ensures var t' := HandleAll(cfg, t, batch[..k], charges[..k]);
      Sound(cfg, t') && Live(t', batch[k..], false) && Measure(cfg, t') + k <= Measure(cfg, t)
  {
    if k > 0 {
      HandleAllWorks(cfg, t, batch, charges, k - 1);
      assert batch[..k][..k - 1] == batch[..k - 1] && charges[..k][..k - 1] == charges[..k - 1];
      var t1 := HandleAll(cfg, t, batch[..k - 1], charges[..k - 1]);
      HandleOneStep(cfg, t1, batch[k - 1..], charges[k - 1]);
      assert batch[k - 1..][1..] == batch[k..];
    }
  }

  lemma PublishOneStep(cfg: Settings, t: Tables, todo: seq<Fetched>, d: Delivery)
    requires Sound(cfg, t) && Live(t, todo, true) && todo != []
    ensures var t' := PublishOne(cfg, t, todo[0], d);
      Sound(cfg, t') && Live(t', todo[1..], true) && Measure(cfg, t') < Measure(cfg, t)
  {
    var f := todo[0];
    assert Current(t, f, true);
    FanoutKeepsSound(cfg, t, f, d.published, d.delay, d.at);
    FanoutShrinks(cfg, t, f, d.published, d.delay, d.at);
    var t' := PublishOne(cfg, t, f, d);
    TailStaysLive(t, t', todo, true, t'.events[f.id], []);
  }

  lemma {:induction false} PublishAllWorks(cfg: Settings, t: Tables, batch: seq<Fetched>, ds: seq<Delivery>, k: nat)
    requires Sound(cfg, t) && Live(t, batch, true) && |ds| == |batch| && k <= |batch|
    ensures var t' := PublishAll(cfg, t, batch[..k], ds[..k]);
      Sound(cfg, t') && Live(t', batch[k..], true) && Measure(cfg, t') + k <= Measure(cfg, t)
  {
    if k > 0 {
      PublishAllWorks(cfg, t, batch, ds, k - 1);
      assert batch[..k][..k - 1] == batch[..k - 1] && ds[..k][..k - 1] == ds[..k - 1];
      PublishOneStep(cfg, PublishAll(cfg, t, batch[..k - 1], ds[..k - 1]), batch[k - 1..], ds[k - 1]);
      assert batch[k - 1..][1..] == batch[k..];
    }
  }

  // An iteration keeps the invariant and works off at least one unit for each event it takes.
  lemma TickWorks(cfg: Settings, t: Tables, d: TickData, t': Tables)
    requires Sound(cfg, t) && IsTick(cfg, t, d, t')
    ensures Sound(cfg, AfterRequests(cfg, t, d)) && Sound(cfg, t')
    ensures Measure(cfg, t') + |d.batch| + |d.fanout| <= Measure(cfg, t)
  {
    HandleAllWorks(cfg, t, d.batch, d.charges, |d.batch|);
    assert d.batch[..|d.batch|] == d.batch && d.charges[..|d.batch|] == d.charges;
    PublishAllWorks(cfg, AfterRequests(cfg, t, d), d.fanout, d.deliveries, |d.fanout|);
    assert d.fanout[..|d.fanout|] == d.fanout && d.deliveries[..|d.fanout|] == d.deliveries;
  }

  // ----- An iteration is a run of the state machine -----

  // One more step of the worker.
  lemma ExtendSolo(cfg: Settings, states: seq<State>, steps: seq<Step>, act: WorkerAction)
    returns (states': seq<State>, steps': seq<Step>)
    requires IsSoloRun(cfg, states, steps) && Inv(cfg, states[|steps|])
    requires WorkerEnabled(cfg, states[|steps|], 0, act)
    ensures IsSoloRun(cfg, states', steps') && states'[0] == states[0] && Inv(cfg, states'[|steps'|])
    ensures states'[|steps'|] == ApplyWorker(cfg, states[|steps|], 0, act)
  {
    WorkKeepsInv(cfg, states[|steps|], act);
    states', steps' := Extend(cfg, states, steps, Work(0, act));
  }

  lemma ExtendRead(cfg: Settings, states: seq<State>, steps: seq<Step>)
    returns (states': seq<State>, steps': seq<Step>)
    requires IsSoloRun(cfg, states, steps) && Inv(cfg, states[|steps|])
    requires var k := WorkerOf(states[|steps|], 0); k.Handling? && k.todo != [] && k.seen.NotRead?
    ensures IsSoloRun(cfg, states', steps') && states'[0] == states[0] && Inv(cfg, states'[|steps'|])
    ensures var s := states[|steps|]; var todo := WorkerOf(s, 0).todo; var s' := states'[|steps'|];
      s'.db == s.db && WorkerOf(s', 0) == Handling(todo, Read(Lookup(s.db, todo[0].row.aggregate)))
  {
    states', steps' := ExtendSolo(cfg, states, steps, ReadPayment);
  }

  lemma ExtendAttempt(cfg: Settings, states: seq<State>, steps: seq<Step>, c: Charge)
    returns (states': seq<State>, steps': seq<Step>)
    requires IsSoloRun(cfg, states, steps) && Inv(cfg, states[|steps|]) && CallsFit(c.result, c.calls)
    requires var k := WorkerOf(states[|steps|], 0); k.Handling? && k.todo != [] && k.seen.Read?
    ensures IsSoloRun(cfg, states', steps') && states'[0] == states[0] && Inv(cfg, states'[|steps'|])
    ensures var s := states[|steps|]; var todo := WorkerOf(s, 0).todo; var s' := states'[|steps'|];
      s'.db == HandleOne(cfg, s.db, todo[0], c) && WorkerOf(s', 0) == Handling(todo[1..], NotRead)
  {
    AttemptWins(cfg, states[|steps|]);
    states', steps' := ExtendSolo(cfg, states, steps, Attempt(c.result, c.calls, c.delay, c.at));
  }

  lemma HandleOneIsRun(cfg: Settings, states: seq<State>, steps: seq<Step>, c: Charge)
    returns (states': seq<State>, steps': seq<Step>)
    requires IsSoloRun(cfg, states, steps) && Inv(cfg, states[|steps|]) && CallsFit(c.result, c.calls)
    requires var k := WorkerOf(states[|steps|], 0); k.Handling? && k.todo != [] && k.seen.NotRead?
    ensures IsSoloRun(cfg, states', steps') && states'[0] == states[0] && Inv(cfg, states'[|steps'|])
    ensures var s := states[|steps|]; var todo := WorkerOf(s, 0).todo; var s' := states'[|steps'|];
      s'.db == HandleOne(cfg, s.db, todo[0], c) && WorkerOf(s', 0) == Handling(todo[1..], NotRead)
  {
    states', steps' := ExtendRead(cfg, states, steps);
    states', steps' := ExtendAttempt(cfg, states', steps', c);
  }

  lemma {:induction false} HandleAllIsRun(cfg: Settings, states: seq<State>, steps: seq<Step>,
                                          batch: seq<Fetched>, charges: seq<Charge>, k: nat)
    returns (states': seq<State>, steps': seq<Step>)
    requires IsSoloRun(cfg, states, steps) && Inv(cfg, states[|steps|]) && |charges| == |batch| && k <= |batch|
    requires WorkerOf(states[|steps|], 0) == Handling(batch, NotRead)
    requires forall c | c in charges :: CallsFit(c.result, c.calls)
    ensures IsSoloRun(cfg, states', steps') && states'[0] == states[0] && Inv(cfg, states'[|steps'|])
    ensures WorkerOf(states'[|steps'|], 0) == Handling(batch[k..], NotRead)
    ensures states'[|steps'|].db == HandleAll(cfg, states[|steps|].db, batch[..k], charges[..k])
  {
    states', steps' := states, steps;
    if k > 0 {
      states', steps' := HandleAllIsRun(cfg, states, steps, batch, charges, k - 1);
      assert batch[..k][..k - 1] == batch[..k - 1] && charges[..k][..k - 1] == charges[..k - 1];
      assert batch[k - 1..][1..] == batch[k..];
      states', steps' := HandleOneIsRun(cfg, states', steps', charges[k - 1]);
    }
  }

  lemma {:induction false} PublishAllIsRun(cfg: Settings, states: seq<State>, steps: seq<Step>,
                                           batch: seq<Fetched>, ds: seq<Delivery>, k: nat)
    returns (states': seq<State>, steps': seq<Step>)
    requires IsSoloRun(cfg, states, steps) && Inv(cfg, states[|steps|]) && |ds| == |batch| && k <= |batch|
    requires WorkerOf(states[|steps|], 0) == Publishing(batch)
    ensures IsSoloRun(cfg, states', steps') && states'[0] == states[0] && Inv(cfg, states'[|steps'|])
    ensures WorkerOf(states'[|steps'|], 0) == Publishing(batch[k..])
    ensures states'[|steps'|].db == PublishAll(cfg, states[|steps|].db, batch[..k], ds[..k])
  {
    states', steps' := states, steps;
    if k > 0 {
      states', steps' := PublishAllIsRun(cfg, states, steps, batch, ds, k - 1);
      assert batch[..k][..k - 1] == batch[..k - 1] && ds[..k][..k - 1] == ds[..k - 1];
      assert batch[k - 1..][1..] == batch[k..];
      var d := ds[k - 1];
      states', steps' := ExtendSolo(cfg, states', steps', Publish(d.published, d.delay, d.at));
    }
  }

  // The same for whole batches.
  lemma BatchIsRun(cfg: Settings, states: seq<State>, steps: seq<Step>, batch: seq<Fetched>, charges: seq<Charge>)
    returns (states': seq<State>, steps': seq<Step>)
    requires IsSoloRun(cfg, states, steps) && Inv(cfg, states[|steps|]) && |charges| == |batch|
    requires WorkerOf(states[|steps|], 0) == Handling(batch, NotRead)
    requires forall c | c in charges :: CallsFit(c.result, c.calls)
    ensures IsSoloRun(cfg, states', steps') && states'[0] == states[0] && Inv(cfg, states'[|steps'|])
    ensures WorkerOf(states'[|steps'|], 0) == Handling([], NotRead)
    ensures states'[|steps'|].db == HandleAll(cfg, states[|steps|].db, batch, charges)
  {
    states', steps' := HandleAllIsRun(cfg, states, steps, batch, charges, |batch|);
    assert batch[..|batch|] == batch && charges[..|batch|] == charges && batch[|batch|..] == [];
  }

  lemma PublishedBatchIsRun(cfg: Settings, states: seq<State>, steps: seq<Step>, batch: seq<Fetched>, ds: seq<Delivery>)
    returns (states': seq<State>, steps': seq<Step>)
    requires IsSoloRun(cfg, states, steps) && Inv(cfg, states[|steps|]) && |ds| == |batch|
    requires WorkerOf(states[|steps|], 0) == Publishing(batch)
    ensures IsSoloRun(cfg, states', steps') && states'[0] == states[0] && Inv(cfg, states'[|steps'|])
    ensures WorkerOf(states'[|steps'|], 0) == Publishing([])
    ensures states'[|steps'|].db == PublishAll(cfg, states[|steps|].db, batch, ds)
  {
    states', steps' := PublishAllIsRun(cfg, states, steps, batch, ds, |batch|);
    assert batch[..|batch|] == batch && ds[..|batch|] == ds && batch[|batch|..] == [];
  }

  lemma ExtendFetch(cfg: Settings, states: seq<State>, steps: seq<Step>, fanout: bool, now: Time, batch: seq<Fetched>)
    returns (states': seq<State>, steps': seq<Step>)
    requires IsSoloRun(cfg, states, steps) && Inv(cfg, states[|steps|])
    requires IsBatch(states[|steps|].db, fanout, now, cfg.batchSize, batch)
    requires if fanout then WorkerOf(states[|steps|], 0) == Handling([], NotRead) && cfg.publishes
             else WorkerOf(states[|steps|], 0) == Idle
    ensures IsSoloRun(cfg, states', steps') && states'[0] == states[0] && Inv(cfg, states'[|steps'|])
    ensures states'[|steps'|].db == states[|steps|].db
    ensures WorkerOf(states'[|steps'|], 0) == if fanout then Publishing(batch) else Handling(batch, NotRead)
  {
    var act := if fanout then FetchFanout(now, batch) else FetchRequests(now, batch);
    states', steps' := ExtendSolo(cfg, states, steps, act);
  }

  // Whatever holds in every state of every run with one worker holds after an iteration too.
  lemma TickIsRun(cfg: Settings, states: seq<State>, steps: seq<Step>, d: TickData, t': Tables)
    returns (states': seq<State>, steps': seq<Step>)
    requires IsSoloRun(cfg, states, steps) && Inv(cfg, states[|steps|])
    requires WorkerOf(states[|steps|], 0) == Idle && IsTick(cfg, states[|steps|].db, d, t')
    requires forall c | c in d.charges :: CallsFit(c.result, c.calls)
    ensures IsSoloRun(cfg, states', steps') && states'[0] == states[0] && Inv(cfg, states'[|steps'|])
    ensures WorkerOf(states'[|steps'|], 0) == Idle && states'[|steps'|].db == t'
  {
    states', steps' := ExtendFetch(cfg, states, steps, false, d.now, d.batch);
    states', steps' := BatchIsRun(cfg, states', steps', d.batch, d.charges);
    if cfg.publishes {
      states', steps' := ExtendFetch(cfg, states', steps', true, d.fanoutNow, d.fanout);
      states', steps' := PublishedBatchIsRun(cfg, states', steps', d.fanout, d.deliveries);
    }
    states', steps' := ExtendSolo(cfg, states', steps', Rest);
  }
}
