/** When the events of the outbox are handled: neither before the time they were put off to, nor out of turn. */
module Punctual {
  import opened Contracts
  import opened Store
  import opened Ledger
  import opened Protocol
  import opened SingleWorker
  import opened Publications

  // ----- What a worker holds -----

  // The clock of the last query of worker `w` in the first `k` steps.
  function FetchedAt(steps: seq<Step>, k: nat, w: nat): Time
    requires k <= |steps|
  {
    if k == 0 then 0
    else match steps[k - 1]
         case Work(v, FetchRequests(now, _)) => if v == w then now else FetchedAt(steps, k - 1, w)
         case Work(v, FetchFanout(now, _)) => if v == w then now else FetchedAt(steps, k - 1, w)
         case _ => FetchedAt(steps, k - 1, w)
  }

  predicate WasDue(todo: seq<Fetched>, requests: bool, now: Time) {
    forall f | f in todo ::
      f.row.status == Pending && f.row.nextAttemptAt <= now && (f.row.kind == PaymentRequested <==> requests)
  }

  predicate HoldsDue(k: Worker, now: Time, limit: nat) {
    match k
    case Idle => true
    case Handling(todo, _) => WasDue(todo, true, now) && |todo| <= limit
    case Publishing(todo) => WasDue(todo, false, now) && |todo| <= limit
  }

  lemma BatchWasDue(t: Tables, fanout: bool, now: Time, limit: nat, batch: seq<Fetched>)
    requires IsBatch(t, fanout, now, limit, batch)
    ensures WasDue(batch, !fanout, now) && |batch| <= limit
  {
  }

  lemma StepHoldsDue(cfg: Settings, s: State, steps: seq<Step>, k: nat, w: nat)
    requires k < |steps| && Enabled(cfg, s, steps[k]) && HoldsDue(WorkerOf(s, w), FetchedAt(steps, k, w), cfg.batchSize)
    ensures HoldsDue(WorkerOf(Apply(cfg, s, steps[k]), w), FetchedAt(steps, k + 1, w), cfg.batchSize)
  {
    if steps[k].Work? && steps[k].w == w {
      match steps[k].work
      case FetchRequests(now, batch) => BatchWasDue(s.db, false, now, cfg.batchSize, batch);
      case FetchFanout(now, batch) => BatchWasDue(s.db, true, now, cfg.batchSize, batch);
      case _ =>
    }
  }

  // With any number of workers, what a worker handles was pending and due when it was fetched.
  lemma {:induction false} HeldRowsWereDue(cfg: Settings, states: seq<State>, steps: seq<Step>, k: nat, w: nat)
    requires IsRun(cfg, states, steps) && states[0] == START && k <= |steps|
    ensures HoldsDue(WorkerOf(states[k], w), FetchedAt(steps, k, w), cfg.batchSize)
  {
    if k > 0 {
      HeldRowsWereDue(cfg, states, steps, k - 1, w);
      StepHoldsDue(cfg, states[k - 1], steps, k - 1, w);
    }
  }

  // A batch that is not full leaves no due event of its kind behind, and a full one only events that are not
  // older than any it takes.
  lemma NoneIsPassedOver(t: Tables, fanout: bool, now: Time, limit: nat, batch: seq<Fetched>, i: nat)
    requires IsBatch(t, fanout, now, limit, batch)
    requires i < |t.events| && t.events[i].status == Pending && t.events[i].nextAttemptAt <= now
    requires fanout <==> t.events[i].kind != PaymentRequested
    ensures if |batch| < limit then Fetched(i, t.events[i]) in batch
            else Fetched(i, t.events[i]) in batch || forall f | f in batch :: f.row.createdAt <= t.events[i].createdAt
  {
    if Takes(batch, i) {
      var k :| 0 <= k < |batch| && batch[k].id == i;
      assert batch[k] == Fetched(i, t.events[i]);
    }
  }

  // ----- With one worker -----

  // The step handles event `i`.
  predicate Handles(s: State, step: Step, i: nat) {
    Tries(s, step, i) ||
    (&& step.Work? && step.work.Attempt?
     && WorkerOf(s, step.w).Handling? && WorkerOf(s, step.w).todo != [] && WorkerOf(s, step.w).todo[0].id == i)
  }

  // When event `i` may be handled next: the clock and delay of the last step that handled it, or the clock of the
  // step that added it.
  function PutOffTo(states: seq<State>, steps: seq<Step>, k: nat, i: nat): Time
    requires k <= |steps| < |states|
  {
    if k == 0 then 0
    else if Handles(states[k - 1], steps[k - 1], i) then steps[k - 1].work.at.now + steps[k - 1].work.delay
    else if i < |states[k - 1].db.events| then PutOffTo(states, steps, k - 1, i)
    else ClockOf(steps[k - 1])
  }

  // A step leaves an event it does not handle as it was, and puts off one that stays pending.
  predicate PutsOff(s: State, step: Step, s': State, i: nat)
    requires i < |s'.db.events|
  {
    if Handles(s, step, i)
    then i < |s.db.events| && (s'.db.events[i].status == Pending ==>
           s'.db.events[i].nextAttemptAt == step.work.at.now + step.work.delay)
    else if i < |s.db.events| then s'.db.events[i] == s.db.events[i]
    else s'.db.events[i].nextAttemptAt == ClockOf(step)
  }

  lemma RequestPutsOff(cfg: Settings, t: Tables, f: Fetched, seen: Option<Payment>, r: CallResult, delay: nat,
                       at: Stamp)
    requires f.id < |t.events|
    ensures var t' := HandleRequest(cfg, t, f, seen, r, delay, at);
      |t.events| <= |t'.events|
      && (t'.events[f.id].status == Pending && seen.Some? && WinsSwap(t, f.row.aggregate, seen.value.version) ==>
            t'.events[f.id].nextAttemptAt == at.now + delay)
  {
  }

  lemma RewritePutsOff(s: State, step: Step, s': State, j: nat, i: nat)
    requires Rewrites(s.db.events, s'.db.events, j, ClockOf(step)) && i < |s'.db.events|
    requires Handles(s, step, j) && (Handles(s, step, i) ==> i == j)
    requires s'.db.events[j].status == Pending ==>
      s'.db.events[j].nextAttemptAt == step.work.at.now + step.work.delay
    ensures PutsOff(s, step, s', i)
  {
  }

  lemma AttemptPutsOff(cfg: Settings, s: State, act: WorkerAction, i: nat)
    requires Inv(cfg, s) && WorkerEnabled(cfg, s, 0, act) && act.Attempt?
    requires i < |ApplyWorker(cfg, s, 0, act).db.events|
    ensures PutsOff(s, Work(0, act), ApplyWorker(cfg, s, 0, act), i)
  {
    var k := WorkerOf(s, 0);
    assert Current(s.db, k.todo[0], false);
    AttemptWins(cfg, s);
    AttemptTables(cfg, s, act);
    RequestRewrites(cfg, s.db, k.todo[0], k.seen.row, act.result, act.delay, act.at);
    RequestPutsOff(cfg, s.db, k.todo[0], k.seen.row, act.result, act.delay, act.at);
    RewritePutsOff(s, Work(0, act), ApplyWorker(cfg, s, 0, act), k.todo[0].id, i);
  }

  lemma PublishPutsOff(cfg: Settings, s: State, act: WorkerAction, i: nat)
    requires Inv(cfg, s) && WorkerEnabled(cfg, s, 0, act) && act.Publish?
    requires i < |ApplyWorker(cfg, s, 0, act).db.events|
    ensures PutsOff(s, Work(0, act), ApplyWorker(cfg, s, 0, act), i)
  {
    var f := WorkerOf(s, 0).todo[0];
    assert Current(s.db, f, true);
    PublishRewrites(cfg, s.db, f, act.published, act.delay, act.at, ClockOf(Work(0, act)));
    RewritePutsOff(s, Work(0, act), ApplyWorker(cfg, s, 0, act), f.id, i);
  }

  lemma ApiPutsOff(cfg: Settings, s: State, step: Step, i: nat)
    requires Enabled(cfg, s, step) && !step.Work? && i < |Apply(cfg, s, step).db.events|
    ensures PutsOff(s, step, Apply(cfg, s, step), i)
  {
    if step.Request? && step.request.Commit? {
      var d := s.requests[step.r].draft;
      if !Violates(s.db, d, step.request.otherViolation) {
        assert Create(s.db, d, step.request.at).events == s.db.events + OutboxFor(d, step.request.at);
      }
    }
  }

  lemma StepPutsOff(cfg: Settings, s: State, step: Step, i: nat)
    requires Inv(cfg, s) && Enabled(cfg, s, step) && Solo(step) && i < |Apply(cfg, s, step).db.events|
    ensures PutsOff(s, step, Apply(cfg, s, step), i)
  {
    if step.Work? {
      if step.work.Attempt? {
        AttemptPutsOff(cfg, s, step.work, i);
      } else if step.work.Publish? {
        PublishPutsOff(cfg, s, step.work, i);
      }
    } else {
      ApiPutsOff(cfg, s, step, i);
    }
  }

  // A pending event is due when the last step that handled it put it off to.
  lemma {:induction false} PendingIsPutOff(cfg: Settings, states: seq<State>, steps: seq<Step>, k: nat, i: nat)
    requires IsSoloRun(cfg, states, steps) && states[0] == START && k <= |steps|
    requires i < |states[k].db.events| && states[k].db.events[i].status == Pending
    ensures states[k].db.events[i].nextAttemptAt == PutOffTo(states, steps, k, i)
  {
    if k > 0 {
      LedgerInvariant(cfg, states, steps, k - 1);
      StepPutsOff(cfg, states[k - 1], steps[k - 1], i);
      if !Handles(states[k - 1], steps[k - 1], i) && i < |states[k - 1].db.events| {
        PendingIsPutOff(cfg, states, steps, k - 1, i);
      }
    }
  }

  // With one worker no event, request or outcome, is handled by a query from before the time its last failure put
  // it off to.
  lemma NeverEarly(cfg: Settings, states: seq<State>, steps: seq<Step>, k: nat, i: nat)
    requires IsSoloRun(cfg, states, steps) && states[0] == START && k < |steps| && Handles(states[k], steps[k], i)
    ensures PutOffTo(states, steps, k, i) <= FetchedAt(steps, k, 0)
  {
    LedgerInvariant(cfg, states, steps, k);
    HeldRowsWereDue(cfg, states, steps, k, 0);
    var f := WorkerOf(states[k], 0).todo[0];
    assert Current(states[k].db, f, f.row.kind != PaymentRequested);
    PendingIsPutOff(cfg, states, steps, k, i);
  }
}
