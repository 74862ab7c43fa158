/** When a fleet of workers keeps one outcome per payment: as long as no worker wins the compare-and-set
    on a payment that is already finished. */
module FleetOutcomes {
  import opened Contracts
  import opened Store
  import opened Ledger
  import opened Protocol
  import opened Fleet
  import SingleWorker

  // ----- What is claimed of a table, and what can go wrong -----

  predicate Finished(s: PaymentStatus) {
    s == CONFIRMED || s == FAILED
  }

  // One outcome event exactly for the finished payments.
  ghost predicate OneOutcomeEach(t: Tables) {
    forall id | id in t.payments :: Outcomes(t.events, id) == if Finished(t.payments[id].status) then 1 else 0
  }

  // The step is an attempt that wins the compare-and-set on a terminal payment.
  predicate WinsOnTerminal(s: State, step: Step) {
    && step.Work? && step.work.Attempt? && Winning(s, step.w)
    && Terminal(s.db.payments[WorkerOf(s, step.w).todo[0].row.aggregate].status)
  }

  // ----- What every fleet run keeps -----

  predicate Requestable(s: PaymentStatus) {
    s == RECEIVED || s == PROCESSING || Finished(s)
  }

  // A payment that was ever requested is not in review, and will not be blocked.
  ghost predicate RequestsOpen(t: Tables) {
    forall i | 0 <= i < |t.events| && t.events[i].kind == PaymentRequested ::
      t.events[i].aggregate in t.payments && Requestable(t.payments[t.events[i].aggregate].status)
  }

  // A row fetched earlier still belongs to a request of the same payment.
  predicate IsRequest(t: Tables, f: Fetched) {
    f.id < |t.events| && t.events[f.id].kind == PaymentRequested && t.events[f.id].aggregate == f.row.aggregate
  }

  // What a worker read is outdated or still the row of the table.
  predicate SeenSound(t: Tables, k: Worker) {
    k.Handling? && |k.todo| > 0 && k.seen.Read? && k.seen.row.Some? ==>
      var id := k.todo[0].row.aggregate;
      && id in t.payments && k.seen.row.value.version <= t.payments[id].version
      && (k.seen.row.value.version == t.payments[id].version ==> k.seen.row.value == t.payments[id])
  }

  ghost predicate WorkerSound(t: Tables, k: Worker) {
    && (k.Handling? ==> forall j | 0 <= j < |k.todo| :: IsRequest(t, k.todo[j]))
    && SeenSound(t, k)
  }

  ghost predicate FleetSound(s: State) {
    && RequestsOpen(s.db)
    && forall w: nat :: WorkerSound(s.db, WorkerOf(s, w))
  }

  // How the tables may change as seen by a worker that does nothing.
  ghost predicate Later(t: Tables, t': Tables) {
    && (forall i | 0 <= i < |t.events| ::
          i < |t'.events| && t'.events[i].kind == t.events[i].kind && t'.events[i].aggregate == t.events[i].aggregate)
    && (forall id | id in t.payments ::
          && id in t'.payments && t.payments[id].version <= t'.payments[id].version
          && (Requestable(t.payments[id].status) && t.payments[id].version == t'.payments[id].version ==>
                t'.payments[id] == t.payments[id]))
  }

  lemma LaterKeepsWorker(t: Tables, t': Tables, k: Worker)
    requires WorkerSound(t, k) && RequestsOpen(t) && Later(t, t')
    ensures WorkerSound(t', k)
  {
    if k.Handling? && |k.todo| > 0 {
      assert IsRequest(t, k.todo[0]);
    }
  }

  // Rewriting one event and appending outcome events.
  lemma EventsKeptIsLater(t: Tables, t': Tables, i: nat, tail: seq<Event>)
    requires EventsKept(t.events, t'.events, i, tail) && forall e | e in tail :: e.kind != PaymentRequested
    ensures forall j | 0 <= j < |t.events| ::
      j < |t'.events| && t'.events[j].kind == t.events[j].kind && t'.events[j].aggregate == t.events[j].aggregate
    ensures forall j | |t.events| <= j < |t'.events| :: t'.events[j].kind != PaymentRequested
  {
    forall j | |t.events| <= j < |t'.events| ensures t'.events[j].kind != PaymentRequested {
      assert t'.events[j] == tail[j - |t.events|];
    }
  }

  lemma WinnerStatus(cfg: Settings, t: Tables, f: Fetched, p: Payment, r: CallResult, delay: nat, at: Stamp)
    requires WinsSwap(t, f.row.aggregate, p.version)
    ensures var t' := HandleRequest(cfg, t, f, Some(p), r, delay, at);
      f.row.aggregate in t'.payments && Requestable(t'.payments[f.row.aggregate].status)
  {
  }

  lemma HandlingIsLater(cfg: Settings, t: Tables, f: Fetched, seen: Option<Payment>, r: CallResult, delay: nat,
                        at: Stamp)
    requires RequestsOpen(t) && IsRequest(t, f)
    ensures var t' := HandleRequest(cfg, t, f, seen, r, delay, at); Later(t, t') && RequestsOpen(t')
  {
    var t' := HandleRequest(cfg, t, f, seen, r, delay, at);
    if seen.Some? && WinsSwap(t, f.row.aggregate, seen.value.version) {
      WinnerPayments(cfg, t, f, seen.value, r, delay, at);
      WinnerStatus(cfg, t, f, seen.value, r, delay, at);
      var tail := WinnerEvents(cfg, t, f, seen.value, r, delay, at);
      EventsKeptIsLater(t, t', f.id, tail);
    } else {
      LoserEffect(cfg, t, f, seen, r, delay, at);
      EventsKeptIsLater(t, t', f.id, []);
    }
  }

  lemma PublishingIsLater(cfg: Settings, t: Tables, f: Fetched, published: bool, delay: nat, at: Stamp)
    requires RequestsOpen(t)
    ensures var t' := HandleFanout(cfg, t, f, published, delay, at); Later(t, t') && RequestsOpen(t')
  {
  }

  lemma CreatingIsLater(t: Tables, d: Draft, at: Stamp)
    requires RequestsOpen(t) && d.id !in t.payments
    ensures Later(t, Create(t, d, at)) && RequestsOpen(Create(t, d, at))
  {
    var t' := Create(t, d, at);
    assert t'.events == t.events + OutboxFor(d, at);
  }

  lemma ReviewingIsLater(t: Tables, id: PaymentId, approve: bool, at: Stamp)
    requires RequestsOpen(t) && InReview(t, id)
    ensures var t' := if approve then Approve(t, id, at) else RejectReview(t, id); Later(t, t') && RequestsOpen(t')
  {
  }

  lemma StepIsLater(cfg: Settings, s: State, step: Step)
    requires FleetSound(s) && Enabled(cfg, s, step)
    ensures Later(s.db, Apply(cfg, s, step).db) && RequestsOpen(Apply(cfg, s, step).db)
  {
    match step
    case Request(r, act) =>
      if act.Commit? && !Violates(s.db, s.requests[r].draft, act.otherViolation) {
        CreatingIsLater(s.db, s.requests[r].draft, act.at);
      }
    case Review(id, approve, at) => ReviewingIsLater(s.db, id, approve, at);
    case Work(w, act) =>
      var k := WorkerOf(s, w);
      assert WorkerSound(s.db, k);
      if act.Attempt? {
        HandlingIsLater(cfg, s.db, k.todo[0], k.seen.row, act.result, act.delay, act.at);
      } else if act.Publish? {
        PublishingIsLater(cfg, s.db, k.todo[0], act.published, act.delay, act.at);
      }
  }

  // The worker that steps: its rest of the batch, a new batch, or what it has just read.
  lemma OwnWorkerSound(cfg: Settings, s: State, w: nat, act: WorkerAction)
    requires FleetSound(s) && WorkerEnabled(cfg, s, w, act)
    requires Later(s.db, ApplyWorker(cfg, s, w, act).db)
    ensures WorkerSound(ApplyWorker(cfg, s, w, act).db, WorkerOf(ApplyWorker(cfg, s, w, act), w))
  {
    assert WorkerSound(s.db, WorkerOf(s, w));
    if act.Attempt? {
      var k := WorkerOf(s, w);
      assert forall j | 0 <= j < |k.todo| - 1 :: k.todo[1..][j] == k.todo[j + 1];
    }
  }

  lemma StepKeepsFleetSound(cfg: Settings, s: State, step: Step)
    requires FleetSound(s) && Enabled(cfg, s, step)
    ensures FleetSound(Apply(cfg, s, step))
  {
    var s' := Apply(cfg, s, step);
    StepIsLater(cfg, s, step);
    forall w: nat ensures WorkerSound(s'.db, WorkerOf(s', w)) {
      if step.Work? && step.w == w {
        OwnWorkerSound(cfg, s, w, step.work);
      } else {
        assert WorkerOf(s', w) == WorkerOf(s, w);
        LaterKeepsWorker(s.db, s'.db, WorkerOf(s, w));
      }
    }
  }

  lemma {:induction false} FleetStaysSound(cfg: Settings, states: seq<State>, steps: seq<Step>, k: nat)
    requires IsRun(cfg, states, steps) && states[0] == START && k <= |steps|
    ensures FleetSound(states[k])
  {
    if k > 0 {
      FleetStaysSound(cfg, states, steps, k - 1);
      StepKeepsFleetSound(cfg, states[k - 1], steps[k - 1]);
    }
  }

  // ----- The condition can be read off the row the worker holds -----

  // Whenever an attempt wins, the row its worker read is the row of the table, status included. So a win
  // on a terminal payment is one whose worker read a terminal status and went on.
  lemma WinnerReadTheRow(cfg: Settings, states: seq<State>, steps: seq<Step>, k: nat)
    requires IsRun(cfg, states, steps) && states[0] == START && k < |steps|
    requires steps[k].Work? && steps[k].work.Attempt? && Winning(states[k], steps[k].w)
    ensures var h := WorkerOf(states[k], steps[k].w);
      && h.seen.row.value == states[k].db.payments[h.todo[0].row.aggregate]
      && (WinsOnTerminal(states[k], steps[k]) <==> Terminal(h.seen.row.value.status))
  {
    FleetStaysSound(cfg, states, steps, k);
    assert WorkerSound(states[k].db, WorkerOf(states[k], steps[k].w));
  }

  // ----- One outcome -----

  // What one step does to one payment, if it changes it or its outcome events at all.
  lemma WinOutcome(cfg: Settings, s: State, step: Step, id: PaymentId)
    requires FleetSound(s) && Enabled(cfg, s, step) && step.Work? && step.work.Attempt? && Winning(s, step.w)
    requires id in s.db.payments
    ensures var s' := Apply(cfg, s, step); var f := WorkerOf(s, step.w).todo[0];
      var final := Finalises(cfg, f, step.work.result);
      && id in s'.db.payments
      && (if f.row.aggregate == id
          then Finished(s'.db.payments[id].status) == final && Requestable(s.db.payments[id].status)
               && Outcomes(s'.db.events, id) == Outcomes(s.db.events, id) + (if final then 1 else 0)
          else s'.db.payments[id] == s.db.payments[id] && Outcomes(s'.db.events, id) == Outcomes(s.db.events, id))
  {
    var k := WorkerOf(s, step.w);
    var f := k.todo[0];
    var act := step.work;
    assert WorkerSound(s.db, k) && IsRequest(s.db, f);
    WinnerPayments(cfg, s.db, f, k.seen.row.value, act.result, act.delay, act.at);
    var tail := WinnerEvents(cfg, s.db, f, k.seen.row.value, act.result, act.delay, act.at);
    WinAddsOutcome(s.db.events, Apply(cfg, s, step).db.events, f.id, tail,
                   Win(f.row.aggregate, k.seen.row.value.version, Finalises(cfg, f, act.result)), id);
  }

  lemma CreateOutcome(t: Tables, d: Draft, at: Stamp, id: PaymentId)
    requires EventsOwned(t) && d.id !in t.payments && id in Create(t, d, at).payments
    ensures var t' := Create(t, d, at);
      && Outcomes(t'.events, id) == Outcomes(t.events, id)
      && (if id in t.payments then t'.payments[id] == t.payments[id]
          else !Finished(t'.payments[id].status) && Outcomes(t'.events, id) == 0)
  {
    ApiTailAddsNoOutcome(t.events, OutboxFor(d, at), id);
    if id == d.id {
      NoEventsYet(t, t.events, id, WasConfirmed);
      NoEventsYet(t, t.events, id, WasFailed);
    }
  }

  // Any other step leaves the outcome events alone and finishes no payment.
  lemma QuietOutcome(cfg: Settings, s: State, step: Step, id: PaymentId)
    requires FleetSound(s) && EventsOwned(s.db) && Enabled(cfg, s, step)
    requires !(step.Work? && step.work.Attempt? && Winning(s, step.w))
    requires id in Apply(cfg, s, step).db.payments
    ensures var s' := Apply(cfg, s, step);
      && Outcomes(s'.db.events, id) == Outcomes(s.db.events, id)
      && (if id in s.db.payments
          then Finished(s'.db.payments[id].status) == Finished(s.db.payments[id].status)
               && (Terminal(s.db.payments[id].status) ==> s'.db.payments[id] == s.db.payments[id])
          else !Finished(s'.db.payments[id].status) && Outcomes(s'.db.events, id) == 0)
  {
    match step
    case Request(r, act) =>
      if act.Commit? && !Violates(s.db, s.requests[r].draft, act.otherViolation) {
        CreateOutcome(s.db, s.requests[r].draft, act.at, id);
      }
    case Review(q, approve, at) =>
      var tail := if approve then [NewEvent(q, PaymentRequested, at)] else [];
      assert Apply(cfg, s, step).db.events == s.db.events + tail;
      ApiTailAddsNoOutcome(s.db.events, tail, id);
    case Work(w, act) =>
      QuietWork(cfg, s, w, act, id);
  }

  lemma QuietWork(cfg: Settings, s: State, w: nat, act: WorkerAction, id: PaymentId)
    requires WorkerEnabled(cfg, s, w, act) && !(act.Attempt? && Winning(s, w))
    ensures var t' := ApplyWorker(cfg, s, w, act).db;
      t'.payments == s.db.payments && Outcomes(t'.events, id) == Outcomes(s.db.events, id)
  {
    var k := WorkerOf(s, w);
    var t' := ApplyWorker(cfg, s, w, act).db;
    if act.Attempt? {
      LoserEffect(cfg, s.db, k.todo[0], k.seen.row, act.result, act.delay, act.at);
      OutcomesKept(s.db.events, t'.events, k.todo[0].id, id);
    } else if act.Publish? {
      var i := k.todo[0].id;
      if i < |s.db.events| {
        assert t'.events == s.db.events[i := t'.events[i]] + [];
      } else {
        assert t'.events == s.db.events + [];
      }
      OutcomesKept(s.db.events, t'.events, i, id);
    }
  }

  lemma WinKeepsOneOutcomeExactlyWhen(cfg: Settings, s: State, step: Step, won: PaymentId)
    requires FleetSound(s) && OneOutcomeEach(s.db) && Enabled(cfg, s, step)
    requires step.Work? && step.work.Attempt? && Winning(s, step.w)
    requires won == WorkerOf(s, step.w).todo[0].row.aggregate
    ensures OneOutcomeEach(Apply(cfg, s, step).db) <==> !Terminal(s.db.payments[won].status)
  {
    var s' := Apply(cfg, s, step);
    var k := WorkerOf(s, step.w);
    WinnerPayments(cfg, s.db, k.todo[0], k.seen.row.value, step.work.result, step.work.delay, step.work.at);
    WinOutcome(cfg, s, step, won);
    forall id | id in s'.db.payments && id != won
      ensures Outcomes(s'.db.events, id) == if Finished(s'.db.payments[id].status) then 1 else 0
    {
      WinOutcome(cfg, s, step, id);
    }
  }

  lemma QuietKeepsOneOutcome(cfg: Settings, s: State, step: Step)
    requires FleetSound(s) && EventsOwned(s.db) && OneOutcomeEach(s.db) && Enabled(cfg, s, step)
    requires !(step.Work? && step.work.Attempt? && Winning(s, step.w))
    ensures OneOutcomeEach(Apply(cfg, s, step).db)
  {
    forall id | id in Apply(cfg, s, step).db.payments
      ensures Outcomes(Apply(cfg, s, step).db.events, id)
           == if Finished(Apply(cfg, s, step).db.payments[id].status) then 1 else 0
    {
      QuietOutcome(cfg, s, step, id);
    }
  }

  lemma StepKeepsOneOutcomeExactlyWhen(cfg: Settings, s: State, step: Step)
    requires FleetSound(s) && EventsOwned(s.db) && OneOutcomeEach(s.db) && Enabled(cfg, s, step)
    ensures OneOutcomeEach(Apply(cfg, s, step).db) <==> !WinsOnTerminal(s, step)
  {
    if step.Work? && step.work.Attempt? && Winning(s, step.w) {
      WinKeepsOneOutcomeExactlyWhen(cfg, s, step, WorkerOf(s, step.w).todo[0].row.aggregate);
    } else {
      QuietKeepsOneOutcome(cfg, s, step);
    }
  }

  lemma OneOutcomeAfter(cfg: Settings, states: seq<State>, steps: seq<Step>, k: nat)
    requires IsRun(cfg, states, steps) && states[0] == START && k < |steps| && OneOutcomeEach(states[k].db)
    ensures OneOutcomeEach(states[k + 1].db) <==> !WinsOnTerminal(states[k], steps[k])
  {
    FleetStaysSound(cfg, states, steps, k);
    FleetAccounting(cfg, states, steps, k);
    StepKeepsOneOutcomeExactlyWhen(cfg, states[k], steps[k]);
  }

  // What holds at the start and is kept exactly by the good steps holds throughout exactly if all are good.
  lemma {:induction false} KeptThroughout(holds: seq<bool>, good: seq<bool>, n: nat)
    requires |holds| == |good| + 1 && holds[0] && n <= |good|
    requires forall k | 0 <= k < |good| && holds[k] :: holds[k + 1] == good[k]
    ensures (forall k | 0 <= k <= n :: holds[k]) <==> (forall k | 0 <= k < n :: good[k])
  {
    if n > 0 {
      KeptThroughout(holds, good, n - 1);
      assert holds[n - 1] ==> holds[n - 1 + 1] == good[n - 1];
    }
  }

  // In every run with any number of workers: at every point each payment has exactly one outcome event
  // when it is CONFIRMED or FAILED and none otherwise, if and only if no attempt won on a terminal payment.
  lemma OneOutcomeExactlyWhen(cfg: Settings, states: seq<State>, steps: seq<Step>)
    requires IsRun(cfg, states, steps) && states[0] == START
    ensures (forall k | 0 <= k <= |steps| :: OneOutcomeEach(states[k].db))
      <==> (forall k | 0 <= k < |steps| :: !WinsOnTerminal(states[k], steps[k]))
  {
    var n := |steps|;
    var holds := seq(n + 1, k requires 0 <= k <= n => OneOutcomeEach(states[k].db));
    var good := seq(n, k requires 0 <= k < n => !WinsOnTerminal(states[k], steps[k]));
    forall k | 0 <= k < n && holds[k] ensures holds[k + 1] == good[k] {
      OneOutcomeAfter(cfg, states, steps, k);
    }
    KeptThroughout(holds, good, n);
    assert forall k | 0 <= k <= n :: holds[k] == OneOutcomeEach(states[k].db);
    assert forall k | 0 <= k < n :: good[k] == !WinsOnTerminal(states[k], steps[k]);
  }

  // ----- Terminal payments -----

  ghost predicate KeepsTerminal(t: Tables, t': Tables) {
    forall id | id in t.payments && Terminal(t.payments[id].status) ::
      id in t'.payments && t'.payments[id] == t.payments[id]
  }

  lemma StepKeepsTerminalExactlyWhen(cfg: Settings, s: State, step: Step)
    requires FleetSound(s) && EventsOwned(s.db) && Enabled(cfg, s, step)
    ensures KeepsTerminal(s.db, Apply(cfg, s, step).db) <==> !WinsOnTerminal(s, step)
  {
    var s' := Apply(cfg, s, step);
    StepIsLater(cfg, s, step);
    if step.Work? && step.work.Attempt? && Winning(s, step.w) {
      var won := WorkerOf(s, step.w).todo[0].row.aggregate;
      SwapDecides(cfg, s, step.w, step.work, won);
      forall id | id in s.db.payments && id != won ensures s'.db.payments[id] == s.db.payments[id] {
        SwapDecides(cfg, s, step.w, step.work, id);
      }
    } else {
      forall id | id in s.db.payments && Terminal(s.db.payments[id].status)
        ensures s'.db.payments[id] == s.db.payments[id]
      {
        QuietOutcome(cfg, s, step, id);
      }
    }
  }

  lemma {:induction false} TerminalKeptBetween(cfg: Settings, states: seq<State>, steps: seq<Step>, j: nat, k: nat)
    requires IsRun(cfg, states, steps) && states[0] == START && j <= k <= |steps|
    requires forall i | 0 <= i < |steps| :: !WinsOnTerminal(states[i], steps[i])
    ensures KeepsTerminal(states[j].db, states[k].db)
    decreases k
  {
    if j < k {
      TerminalKeptBetween(cfg, states, steps, j, k - 1);
      FleetStaysSound(cfg, states, steps, k - 1);
      FleetAccounting(cfg, states, steps, k - 1);
      StepKeepsTerminalExactlyWhen(cfg, states[k - 1], steps[k - 1]);
    }
  }

  // Under the same condition, and only under it, the row of a terminal payment never changes again.
  lemma TerminalIsForEverExactlyWhen(cfg: Settings, states: seq<State>, steps: seq<Step>)
    requires IsRun(cfg, states, steps) && states[0] == START
    ensures (forall j, k | 0 <= j <= k <= |steps| :: KeepsTerminal(states[j].db, states[k].db))
      <==> (forall i | 0 <= i < |steps| :: !WinsOnTerminal(states[i], steps[i]))
  {
    if forall i | 0 <= i < |steps| :: !WinsOnTerminal(states[i], steps[i]) {
      forall j, k | 0 <= j <= k <= |steps| ensures KeepsTerminal(states[j].db, states[k].db) {
        TerminalKeptBetween(cfg, states, steps, j, k);
      }
    } else {
      var i :| 0 <= i < |steps| && WinsOnTerminal(states[i], steps[i]);
      FleetStaysSound(cfg, states, steps, i);
      FleetAccounting(cfg, states, steps, i);
      StepKeepsTerminalExactlyWhen(cfg, states[i], steps[i]);
      assert !KeepsTerminal(states[i].db, states[i + 1].db);
    }
  }

  // ----- Two ways to meet the condition -----

  // A single worker always meets it.
  lemma OneWorkerNeverWinsOnTerminal(cfg: Settings, states: seq<State>, steps: seq<Step>, k: nat)
    requires IsSoloRun(cfg, states, steps) && states[0] == START && k < |steps|
    ensures !WinsOnTerminal(states[k], steps[k])
  {
    SingleWorker.LedgerInvariant(cfg, states, steps, k);
    if steps[k].Work? && steps[k].work.Attempt? {
      assert Solo(steps[k]) && WorkerEnabled(cfg, states[k], 0, steps[k].work);
      SingleWorker.AttemptWins(cfg, states[k]);
    }
  }

  // So do any number of workers none of which goes on with a payment it read as finished.
  lemma SkippingFinishedPaymentsSuffices(cfg: Settings, states: seq<State>, steps: seq<Step>)
    requires IsRun(cfg, states, steps) && states[0] == START
    requires forall k | 0 <= k < |steps| && steps[k].Work? && steps[k].work.Attempt? ::
      var seen := WorkerOf(states[k], steps[k].w).seen;
      seen.Read? && (seen.row.Some? ==> !Terminal(seen.row.value.status))
    ensures forall k | 0 <= k <= |steps| :: OneOutcomeEach(states[k].db)
  {
    forall k | 0 <= k < |steps| ensures !WinsOnTerminal(states[k], steps[k]) {
      if steps[k].Work? && steps[k].work.Attempt? && Winning(states[k], steps[k].w) {
        WinnerReadTheRow(cfg, states, steps, k);
      }
    }
    OneOutcomeExactlyWhen(cfg, states, steps);
  }
}
