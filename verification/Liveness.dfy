/** How much work a table still holds, and how long an event can be passed over. */
module Liveness {
  import opened Contracts
  import opened Store
  import opened Ledger
  import opened Protocol
  import opened SingleWorker

  // ----- Sums over events -----

  function Sum(es: seq<Event>, w: Event -> int): int {
    if |es| == 0 then 0 else Sum(es[..|es| - 1], w) + w(es[|es| - 1])
  }

  lemma SumAppend(es: seq<Event>, e: Event, w: Event -> int)
    ensures Sum(es + [e], w) == Sum(es, w) + w(e)
  {
    assert (es + [e])[..|es|] == es;
  }

  lemma {:induction false} SumReplace(es: seq<Event>, i: nat, e: Event, w: Event -> int)
    requires i < |es|
    ensures Sum(es[i := e], w) == Sum(es, w) - w(es[i]) + w(e)
  {
    var n := |es| - 1;
    if i == n {
      assert es[i := e][..n] == es[..n];
    } else {
      assert es[i := e][..n] == es[..n][i := e];
      SumReplace(es[..n], i, e, w);
    }
  }

  lemma {:induction false} SumAtMost(es: seq<Event>, w: Event -> int, v: Event -> int, m: nat)
    requires forall e | e in es :: w(e) <= m * v(e)
    ensures Sum(es, w) <= m * Sum(es, v)
  {
    if |es| > 0 {
      var n := |es| - 1;
      assert es[n] in es;
      SumAtMost(es[..n], w, v, m);
      assert m * Sum(es, v) == m * Sum(es[..n], v) + m * v(es[n]);
    }
  }

  lemma {:induction false} SumNonNegative(es: seq<Event>, w: Event -> int)
    requires forall e | e in es :: w(e) >= 0
    ensures Sum(es, w) >= 0
    ensures forall e | e in es :: Sum(es, w) >= w(e)
  {
    if |es| > 0 {
      assert es[|es| - 1] in es;
      SumNonNegative(es[..|es| - 1], w);
    }
  }

  // ----- The measure -----

  // What is left to do for one event. Finalising a request may create a new event of weight
  // maxAttempts, which is why a request weighs maxAttempts more.
  function Weight(cfg: Settings, e: Event): int {
    if e.status != Pending then 0
    else if e.kind == PaymentRequested then 2 * cfg.maxAttempts - e.attempts
    else cfg.maxAttempts - e.attempts
  }

  function Measure(cfg: Settings, t: Tables): int {
    Sum(t.events, e => Weight(cfg, e))
  }

  lemma MeasureNonNegative(cfg: Settings, t: Tables)
    requires Sound(cfg, t)
    ensures Measure(cfg, t) >= 0
    ensures forall i | 0 <= i < |t.events| && t.events[i].status == Pending :: Measure(cfg, t) >= 1
  {
    var w := e => Weight(cfg, e);
    forall e | e in t.events ensures w(e) >= 0 && (e.status == Pending ==> w(e) >= 1) {
      assert EventSound(cfg, t, e);
    }
    SumNonNegative(t.events, w);
    forall i | 0 <= i < |t.events| && t.events[i].status == Pending ensures Measure(cfg, t) >= 1 {
      assert t.events[i] in t.events;
    }
  }

  lemma RequestShrinks(cfg: Settings, t: Tables, f: Fetched, r: CallResult, delay: nat, at: Stamp)
    requires Sound(cfg, t) && Current(t, f, false)
    ensures Measure(cfg, HandleRequest(cfg, t, f, Lookup(t, f.row.aggregate), r, delay, at)) < Measure(cfg, t)
  {
    var w := e => Weight(cfg, e);
    PendingMeansOpen(cfg, t, f.id);
    assert EventSound(cfg, t, f.row);
    var e, tail, p := RequestEffect(cfg, t, f, r, delay, at);
    SumReplace(t.events, f.id, e, w);
    if tail == [] {
      assert t.events[f.id := e] + tail == t.events[f.id := e];
    } else {
      assert tail == [tail[0]];
      SumAppend(t.events[f.id := e], tail[0], w);
    }
  }

  lemma FanoutShrinks(cfg: Settings, t: Tables, f: Fetched, published: bool, delay: nat, at: Stamp)
    requires Sound(cfg, t) && Current(t, f, true)
    ensures Measure(cfg, HandleFanout(cfg, t, f, published, delay, at)) < Measure(cfg, t)
  {
    var t' := HandleFanout(cfg, t, f, published, delay, at);
    assert EventSound(cfg, t, f.row);
    assert t'.events == t.events[f.id := t'.events[f.id]];
    SumReplace(t.events, f.id, t'.events[f.id], e => Weight(cfg, e));
  }

  // ----- Every run ends its work -----

  predicate Handles(step: Step) {
    step.Work? && (step.work.Attempt? || step.work.Publish?)
  }

  predicate BringsWork(step: Step) {
    (step.Request? && step.request.Commit?) || step.Review?
  }

  function HandledIn(steps: seq<Step>): nat {
    if |steps| == 0 then 0 else HandledIn(steps[..|steps| - 1]) + (if Handles(steps[|steps| - 1]) then 1 else 0)
  }

  function BroughtIn(steps: seq<Step>): nat {
    if |steps| == 0 then 0 else BroughtIn(steps[..|steps| - 1]) + (if BringsWork(steps[|steps| - 1]) then 1 else 0)
  }

  lemma AppendGrowsMeasure(cfg: Settings, t: Tables, t': Tables, tail: seq<Event>)
    requires t'.events == t.events + tail && |tail| <= 1
    requires forall e | e in tail :: e.attempts == 0
    ensures Measure(cfg, t') <= Measure(cfg, t) + 2 * cfg.maxAttempts
  {
    if |tail| == 1 {
      assert tail == [tail[0]] && tail[0] in tail;
      SumAppend(t.events, tail[0], e => Weight(cfg, e));
    } else {
      assert t'.events == t.events;
    }
  }

  lemma ApiChangesMeasure(cfg: Settings, s: State, step: Step)
    requires Enabled(cfg, s, step) && !step.Work?
    ensures Measure(cfg, Apply(cfg, s, step).db)
         <= Measure(cfg, s.db) + (if BringsWork(step) then 2 * cfg.maxAttempts else 0)
  {
    var t, t' := s.db, Apply(cfg, s, step).db;
    if step.Review? {
      AppendGrowsMeasure(cfg, t, t', if step.approve then [NewEvent(step.id, PaymentRequested, step.at)] else []);
    } else if step.request.Commit? && !Violates(t, s.requests[step.r].draft, step.request.otherViolation) {
      AppendGrowsMeasure(cfg, t, t', OutboxFor(s.requests[step.r].draft, step.request.at));
    }
  }

  lemma WorkChangesMeasure(cfg: Settings, s: State, act: WorkerAction)
    requires Inv(cfg, s) && WorkerEnabled(cfg, s, 0, act)
    ensures Measure(cfg, ApplyWorker(cfg, s, 0, act).db) + (if Handles(Work(0, act)) then 1 else 0)
         <= Measure(cfg, s.db)
  {
    var k := WorkerOf(s, 0);
    if act.Attempt? {
      AttemptWins(cfg, s);
      assert Current(s.db, k.todo[0], false);
      RequestShrinks(cfg, s.db, k.todo[0], act.result, act.delay, act.at);
    } else if act.Publish? {
      assert Current(s.db, k.todo[0], true);
      FanoutShrinks(cfg, s.db, k.todo[0], act.published, act.delay, act.at);
    }
  }

  lemma StepChangesMeasure(cfg: Settings, s: State, step: Step)
    requires Inv(cfg, s) && Enabled(cfg, s, step) && Solo(step)
    ensures Measure(cfg, Apply(cfg, s, step).db) + (if Handles(step) then 1 else 0)
         <= Measure(cfg, s.db) + (if BringsWork(step) then 2 * cfg.maxAttempts else 0)
  {
    if step.Work? {
      WorkChangesMeasure(cfg, s, step.work);
    } else {
      ApiChangesMeasure(cfg, s, step);
    }
  }

  lemma OneMore(m: nat, n: nat, more: bool)
    ensures m * (n + (if more then 1 else 0)) == m * n + (if more then m else 0)
  {
  }

  lemma {:induction false} WorkAddsUp(cfg: Settings, states: seq<State>, steps: seq<Step>)
    requires |states| == |steps| + 1
    requires forall k | 0 <= k < |steps| ::
      Measure(cfg, states[k + 1].db) + (if Handles(steps[k]) then 1 else 0)
      <= Measure(cfg, states[k].db) + (if BringsWork(steps[k]) then 2 * cfg.maxAttempts else 0)
    ensures HandledIn(steps) + Measure(cfg, states[|steps|].db)
         <= Measure(cfg, states[0].db) + 2 * cfg.maxAttempts * BroughtIn(steps)
  {
    var n := |steps|;
    if n > 0 {
      WorkAddsUp(cfg, states[..n], steps[..n - 1]);
      OneMore(2 * cfg.maxAttempts, BroughtIn(steps[..n - 1]), BringsWork(steps[n - 1]));
    }
  }

  lemma WorkIsBounded(cfg: Settings, states: seq<State>, steps: seq<Step>)
    requires IsSoloRun(cfg, states, steps) && Inv(cfg, states[0])
    ensures HandledIn(steps) + Measure(cfg, states[|steps|].db)
         <= Measure(cfg, states[0].db) + 2 * cfg.maxAttempts * BroughtIn(steps)
  {
    forall k | 0 <= k < |steps|
      ensures Measure(cfg, states[k + 1].db) + (if Handles(steps[k]) then 1 else 0)
           <= Measure(cfg, states[k].db) + (if BringsWork(steps[k]) then 2 * cfg.maxAttempts else 0)
    {
      RunKeepsInv(cfg, states, steps, k);
      StepChangesMeasure(cfg, states[k], steps[k]);
    }
    WorkAddsUp(cfg, states, steps);
  }

  // Over a whole run the worker handles at most 2 * maxAttempts events for each commit or review, so a
  // run without new commits and reviews comes to rest, whatever the provider and the bus do.
  lemma EveryRunComesToRest(cfg: Settings, states: seq<State>, steps: seq<Step>)
    requires IsSoloRun(cfg, states, steps) && states[0] == START
    ensures HandledIn(steps) <= 2 * cfg.maxAttempts * BroughtIn(steps)
  {
    LedgerInvariant(cfg, states, steps, 0);
    WorkIsBounded(cfg, states, steps);
    LedgerInvariant(cfg, states, steps, |steps|);
    MeasureNonNegative(cfg, states[|steps|].db);
    assert Measure(cfg, START.db) == 0;
  }

  // A table without pending events has no payment still on its way.
  lemma NothingPendingNothingOpen(cfg: Settings, t: Tables)
    requires Sound(cfg, t)
    requires forall i | 0 <= i < |t.events| :: t.events[i].status != Pending
    ensures forall id | id in t.payments ::
      t.payments[id].status == IN_REVIEW || Terminal(t.payments[id].status)
  {
    forall id | id in t.payments ensures t.payments[id].status == IN_REVIEW || Terminal(t.payments[id].status) {
      assert Balanced(t.payments[id], t.events, id);
      if Count(t.events, id, RequestPending) > 0 {
        var i := FindHit(t.events, id, RequestPending);
      }
    }
  }

  // ----- How long a due request can be passed over -----

  predicate Older(e: Event, created: Time) {
    PendingRequest(e) && e.createdAt <= created
  }

  function OlderOnes(es: seq<Event>, created: Time): int {
    Sum(es, e => if Older(e, created) then 1 else 0)
  }

  function AttemptsLeft(cfg: Settings, created: Time): Event -> int {
    (e: Event) => if Older(e, created) then cfg.maxAttempts - e.attempts else 0
  }

  // How many of the rows a worker still holds are older.
  function Owed(todo: seq<Fetched>, created: Time): nat {
    if |todo| == 0 then 0 else (if Older(todo[0].row, created) then 1 else 0) + Owed(todo[1..], created)
  }

  function OwedBy(k: Worker, created: Time): nat {
    if k.Handling? then Owed(k.todo, created) else 0
  }

  function Potential(cfg: Settings, s: State, created: Time): int {
    Sum(s.db.events, AttemptsLeft(cfg, created)) - OwedBy(WorkerOf(s, 0), created)
  }

  // The event `i` waits, unchanged, and the worker does not hold it.
  ghost predicate Waits(s: State, i: nat, row: Event) {
    && i < |s.db.events| && s.db.events[i] == row && PendingRequest(row)
    && (WorkerOf(s, 0).Handling? ==> !Takes(WorkerOf(s, 0).todo, i))
  }

  // A step that does not take the event, does not crash, and creates newer requests only.
  ghost predicate PassesOver(step: Step, i: nat, created: Time) {
    && (step.Work? ==> !step.work.Crash? && (step.work.FetchRequests? ==> !Takes(step.work.batch, i)))
    && (step.Request? && step.request.Commit? ==> step.request.at.createdAt > created)
    && (step.Review? ==> step.at.createdAt > created)
  }

  // A batch was fetched while the event was due.
  predicate Skips(step: Step, row: Event) {
    step.Work? && step.work.FetchRequests? && Due(row, false, step.work.now)
  }

  function SkipsIn(steps: seq<Step>, row: Event): nat {
    if |steps| == 0 then 0 else SkipsIn(steps[..|steps| - 1], row) + (if Skips(steps[|steps| - 1], row) then 1 else 0)
  }

  // The attempts left in the table cover what the worker owes and the waiting event itself.
  lemma {:induction false} OwedIsCovered(cfg: Settings, es: seq<Event>, todo: seq<Fetched>, i: nat, created: Time)
    requires i < |es|
    requires forall j | 0 <= j < |es| && es[j].status == Pending :: es[j].attempts < cfg.maxAttempts
    requires forall k | 0 <= k < |todo| :: todo[k].id < |es| && es[todo[k].id] == todo[k].row && todo[k].id != i
    requires forall j, k | 0 <= j < k < |todo| :: todo[j].id != todo[k].id
    ensures Sum(es, AttemptsLeft(cfg, created)) >= AttemptsLeft(cfg, created)(es[i]) + Owed(todo, created)
    decreases |todo|
  {
    var w := AttemptsLeft(cfg, created);
    if |todo| == 0 {
      forall e | e in es ensures w(e) >= 0 {
        var j :| 0 <= j < |es| && es[j] == e;
      }
      SumNonNegative(es, w);
      assert es[i] in es;
    } else {
      var k := todo[0].id;
      var e := es[k].(status := Sent);
      SumReplace(es, k, e, w);
      OwedIsCovered(cfg, es[k := e], todo[1..], i, created);
    }
  }

  lemma OwedByFullBatch(todo: seq<Fetched>, created: Time)
    requires forall k | 0 <= k < |todo| :: Older(todo[k].row, created)
    ensures Owed(todo, created) == |todo|
  {
  }

  lemma NewerTail(cfg: Settings, es: seq<Event>, tail: seq<Event>, created: Time)
    requires |tail| <= 1 && forall e | e in tail :: !Older(e, created)
    ensures Sum(es + tail, AttemptsLeft(cfg, created)) == Sum(es, AttemptsLeft(cfg, created))
  {
    if |tail| == 1 {
      assert tail == [tail[0]] && tail[0] in tail;
      SumAppend(es, tail[0], AttemptsLeft(cfg, created));
    } else {
      assert es + tail == es;
    }
  }

  // Handling an older row uses up at least one of the attempts left.
  lemma HandlingPays(cfg: Settings, t: Tables, f: Fetched, r: CallResult, delay: nat, at: Stamp, created: Time)
    requires Sound(cfg, t) && Current(t, f, false) && f.row.aggregate in t.payments
    ensures Sum(HandleRequest(cfg, t, f, Some(t.payments[f.row.aggregate]), r, delay, at).events,
                AttemptsLeft(cfg, created))
         <= Sum(t.events, AttemptsLeft(cfg, created)) - (if Older(f.row, created) then 1 else 0)
  {
    assert EventSound(cfg, t, f.row);
    var e, tail, p := RequestEffect(cfg, t, f, r, delay, at);
    SumReplace(t.events, f.id, e, AttemptsLeft(cfg, created));
    NewerTail(cfg, t.events[f.id := e], tail, created);
  }

  // The waiting event stays as it is when the head of a batch that does not hold it is handled.
  lemma HandlingSpares(cfg: Settings, t: Tables, todo: seq<Fetched>, r: CallResult, delay: nat, at: Stamp, i: nat)
    requires todo != [] && Current(t, todo[0], false) && todo[0].row.aggregate in t.payments
    requires i < |t.events| && !Takes(todo, i)
    ensures var t' := HandleRequest(cfg, t, todo[0], Some(t.payments[todo[0].row.aggregate]), r, delay, at);
      i < |t'.events| && t'.events[i] == t.events[i]
    ensures !Takes(todo[1..], i)
  {
    assert todo[0].id != i;
    var e, tail, p := RequestEffect(cfg, t, todo[0], r, delay, at);
    forall k | 0 <= k < |todo[1..]| ensures todo[1..][k].id != i {
      assert todo[k + 1].id != i;
    }
  }

  lemma AttemptPays(cfg: Settings, s: State, act: WorkerAction, i: nat, row: Event)
    requires Inv(cfg, s) && act.Attempt? && WorkerEnabled(cfg, s, 0, act) && Waits(s, i, row)
    ensures Waits(ApplyWorker(cfg, s, 0, act), i, row)
    ensures Potential(cfg, ApplyWorker(cfg, s, 0, act), row.createdAt) <= Potential(cfg, s, row.createdAt)
  {
    var todo := WorkerOf(s, 0).todo;
    AttemptWins(cfg, s);
    assert Current(s.db, todo[0], false);
    HandlingPays(cfg, s.db, todo[0], act.result, act.delay, act.at, row.createdAt);
    HandlingSpares(cfg, s.db, todo, act.result, act.delay, act.at, i);
  }

  lemma FetchPays(cfg: Settings, s: State, act: WorkerAction, i: nat, row: Event)
    requires Inv(cfg, s) && act.FetchRequests? && WorkerEnabled(cfg, s, 0, act) && Waits(s, i, row)
    requires !Takes(act.batch, i)
    ensures Potential(cfg, ApplyWorker(cfg, s, 0, act), row.createdAt)
         <= Potential(cfg, s, row.createdAt) - (if Due(row, false, act.now) then cfg.batchSize else 0)
  {
    if Due(row, false, act.now) {
      OwedByFullBatch(act.batch, row.createdAt);
    }
  }

  lemma PublishPays(cfg: Settings, s: State, act: WorkerAction, i: nat, row: Event)
    requires Inv(cfg, s) && act.Publish? && WorkerEnabled(cfg, s, 0, act) && Waits(s, i, row)
    ensures Waits(ApplyWorker(cfg, s, 0, act), i, row)
    ensures Potential(cfg, ApplyWorker(cfg, s, 0, act), row.createdAt) <= Potential(cfg, s, row.createdAt)
  {
    var f := WorkerOf(s, 0).todo[0];
    assert Current(s.db, f, true);
    var t' := HandleFanout(cfg, s.db, f, act.published, act.delay, act.at);
    assert t'.events == s.db.events[f.id := t'.events[f.id]];
    SumReplace(s.db.events, f.id, t'.events[f.id], AttemptsLeft(cfg, row.createdAt));
  }

  lemma ApiPays(cfg: Settings, s: State, s': State, tail: seq<Event>, i: nat, row: Event)
    requires Waits(s, i, row) && s'.db.events == s.db.events + tail && s'.workers == s.workers
    requires |tail| <= 1 && forall e | e in tail :: !Older(e, row.createdAt)
    ensures Waits(s', i, row)
    ensures Potential(cfg, s', row.createdAt) == Potential(cfg, s, row.createdAt)
  {
    NewerTail(cfg, s.db.events, tail, row.createdAt);
  }

  lemma RequestPays(cfg: Settings, s: State, r: nat, act: RequestAction, i: nat, row: Event)
    requires RequestEnabled(s, r, act) && Waits(s, i, row)
    requires act.Commit? ==> act.at.createdAt > row.createdAt
    ensures Waits(ApplyRequest(s, r, act), i, row)
    ensures Potential(cfg, ApplyRequest(s, r, act), row.createdAt) == Potential(cfg, s, row.createdAt)
  {
    var s' := ApplyRequest(s, r, act);
    if act.Commit? && !Violates(s.db, s.requests[r].draft, act.otherViolation) {
      ApiPays(cfg, s, s', OutboxFor(s.requests[r].draft, act.at), i, row);
    } else {
      assert s.db.events + [] == s.db.events;
      ApiPays(cfg, s, s', [], i, row);
    }
  }

  lemma WorkPays(cfg: Settings, s: State, act: WorkerAction, i: nat, row: Event)
    requires Inv(cfg, s) && WorkerEnabled(cfg, s, 0, act) && Waits(s, i, row)
    requires PassesOver(Work(0, act), i, row.createdAt)
    ensures Waits(ApplyWorker(cfg, s, 0, act), i, row)
    ensures Potential(cfg, ApplyWorker(cfg, s, 0, act), row.createdAt)
         <= Potential(cfg, s, row.createdAt) - (if Skips(Work(0, act), row) then cfg.batchSize else 0)
  {
    if act.Attempt? {
      AttemptPays(cfg, s, act, i, row);
    } else if act.Publish? {
      PublishPays(cfg, s, act, i, row);
    } else if act.FetchRequests? {
      FetchPays(cfg, s, act, i, row);
    }
  }

  lemma StepPays(cfg: Settings, s: State, step: Step, i: nat, row: Event)
    requires Inv(cfg, s) && Enabled(cfg, s, step) && Solo(step)
    requires Waits(s, i, row) && PassesOver(step, i, row.createdAt)
    ensures Waits(Apply(cfg, s, step), i, row)
    ensures Potential(cfg, Apply(cfg, s, step), row.createdAt)
         <= Potential(cfg, s, row.createdAt) - (if Skips(step, row) then cfg.batchSize else 0)
  {
    match step
    case Request(r, act) =>
      RequestPays(cfg, s, r, act, i, row);
    case Review(id, approve, at) =>
      assert s.db.events + [] == s.db.events;
      ApiPays(cfg, s, ApplyReview(s, id, approve, at), if approve then [NewEvent(id, PaymentRequested, at)] else [],
              i, row);
    case Work(w, act) =>
      WorkPays(cfg, s, act, i, row);
  }

  lemma {:induction false} PaymentsAddUp(cfg: Settings, states: seq<State>, steps: seq<Step>, i: nat, row: Event)
    requires |states| == |steps| + 1 && Waits(states[0], i, row)
    requires forall k | 0 <= k < |steps| && Waits(states[k], i, row) ::
      && Waits(states[k + 1], i, row)
      && Potential(cfg, states[k + 1], row.createdAt)
         <= Potential(cfg, states[k], row.createdAt) - (if Skips(steps[k], row) then cfg.batchSize else 0)
    ensures Waits(states[|steps|], i, row)
    ensures cfg.batchSize * SkipsIn(steps, row)
         <= Potential(cfg, states[0], row.createdAt) - Potential(cfg, states[|steps|], row.createdAt)
  {
    var n := |steps|;
    if n > 0 {
      PaymentsAddUp(cfg, states[..n], steps[..n - 1], i, row);
      OneMore(cfg.batchSize, SkipsIn(steps[..n - 1], row), Skips(steps[n - 1], row));
    }
  }

  lemma SkipsCostAttempts(cfg: Settings, states: seq<State>, steps: seq<Step>, i: nat, row: Event)
    requires IsSoloRun(cfg, states, steps) && Inv(cfg, states[0]) && Waits(states[0], i, row)
    requires forall k | 0 <= k < |steps| :: PassesOver(steps[k], i, row.createdAt)
    ensures Waits(states[|steps|], i, row)
    ensures cfg.batchSize * SkipsIn(steps, row)
         <= Potential(cfg, states[0], row.createdAt) - Potential(cfg, states[|steps|], row.createdAt)
  {
    forall k | 0 <= k < |steps| && Waits(states[k], i, row)
      ensures Waits(states[k + 1], i, row)
      ensures Potential(cfg, states[k + 1], row.createdAt)
           <= Potential(cfg, states[k], row.createdAt) - (if Skips(steps[k], row) then cfg.batchSize else 0)
    {
      RunKeepsInv(cfg, states, steps, k);
      StepPays(cfg, states[k], steps[k], i, row);
    }
    PaymentsAddUp(cfg, states, steps, i, row);
  }

  // How many of the pending requests created no later than `es[i]` are others than `es[i]`.
  function OthersBefore(es: seq<Event>, i: nat): int
    requires i < |es|
  {
    OlderOnes(es, es[i].createdAt) - 1
  }

  lemma PotentialAtStart(cfg: Settings, s: State, i: nat, row: Event)
    requires Waits(s, i, row)
    ensures Potential(cfg, s, row.createdAt)
         <= cfg.maxAttempts * OthersBefore(s.db.events, i) + (cfg.maxAttempts - row.attempts)
  {
    var es := s.db.events;
    var w := AttemptsLeft(cfg, row.createdAt);
    var one := (e: Event) => if Older(e, row.createdAt) then 1 else 0;
    var gone := row.(status := Sent);
    SumReplace(es, i, gone, w);
    SumReplace(es, i, gone, one);
    SumAtMost(es[i := gone], w, one, cfg.maxAttempts);
    assert OlderOnes(es, row.createdAt) == Sum(es, one);
  }

  lemma PotentialAtEnd(cfg: Settings, s: State, i: nat, row: Event)
    requires Inv(cfg, s) && Waits(s, i, row)
    ensures Potential(cfg, s, row.createdAt) >= cfg.maxAttempts - row.attempts
  {
    forall j | 0 <= j < |s.db.events| && s.db.events[j].status == Pending
      ensures s.db.events[j].attempts < cfg.maxAttempts
    {
      assert EventSound(cfg, s.db, s.db.events[j]);
    }
    var todo := if WorkerOf(s, 0).Handling? then WorkerOf(s, 0).todo else [];
    forall k | 0 <= k < |todo|
      ensures todo[k].id < |s.db.events| && s.db.events[todo[k].id] == todo[k].row && todo[k].id != i
    {
      assert Current(s.db, todo[k], false);
    }
    OwedIsCovered(cfg, s.db.events, todo, i, row.createdAt);
  }

  // A request that is due is passed over by at most floor(n * maxAttempts / batchSize) batches, where
  // n is the number of other pending requests created no later than it. API calls may interfere at any
  // point; the run may begin in any state that keeps the invariant.
  lemma BoundedWaiting(cfg: Settings, states: seq<State>, steps: seq<Step>, i: nat, row: Event)
    requires IsSoloRun(cfg, states, steps) && Inv(cfg, states[0]) && Waits(states[0], i, row)
    requires forall k | 0 <= k < |steps| :: PassesOver(steps[k], i, row.createdAt)
    ensures cfg.batchSize * SkipsIn(steps, row) <= cfg.maxAttempts * OthersBefore(states[0].db.events, i)
  {
    SkipsCostAttempts(cfg, states, steps, i, row);
    RunKeepsInv(cfg, states, steps, |steps|);
    PotentialAtStart(cfg, states[0], i, row);
    PotentialAtEnd(cfg, states[|steps|], i, row);
  }
}
