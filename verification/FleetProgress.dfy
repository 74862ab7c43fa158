/** When a fleet of workers keeps every open payment in work: as long as no attempt loses the
    compare-and-set on an open payment, and none puts off a request that is already closed. */
module FleetProgress {
  import opened Contracts
  import opened Store
  import opened Ledger
  import opened Protocol
  import opened Fleet
  import opened FleetOutcomes
  import SingleWorker

  // ----- What is claimed of a table, and what can go wrong -----

  predicate Open(s: PaymentStatus) {
    s == RECEIVED || s == PROCESSING
  }

  predicate Asks(t: Tables, i: nat, id: PaymentId) {
    i < |t.events| && PendingRequest(t.events[i]) && t.events[i].aggregate == id
  }

  ghost predicate Requested(t: Tables, id: PaymentId) {
    exists i: nat :: Asks(t, i, id)
  }

  // Every payment in work still has a request that some worker will fetch.
  ghost predicate AllRequested(t: Tables) {
    forall id | id in t.payments && Open(t.payments[id].status) :: Requested(t, id)
  }

  // The step is an attempt that closes the request of an open payment because it lost the compare-and-set,
  // or that wins and leaves a payment open whose request another worker has closed.
  predicate Strands(cfg: Settings, s: State, step: Step) {
    step.Work? && step.work.Attempt? &&
    var k := WorkerOf(s, step.w);
    k.Handling? && k.todo != [] &&
    var f := k.todo[0];
    if Winning(s, step.w)
    then !Finalises(cfg, f, step.work.result) && (f.id < |s.db.events| ==> s.db.events[f.id].status != Pending)
    else f.row.aggregate in s.db.payments && Open(s.db.payments[f.row.aggregate].status)
  }

  // ----- What every fleet run keeps -----

  predicate Asked(t: Tables, i: nat, id: PaymentId) {
    i < |t.events| && t.events[i].kind == PaymentRequested && t.events[i].aggregate == id
  }

  // One request event for each payment at most.
  ghost predicate OneRequestEach(t: Tables) {
    forall i: nat, j: nat, id | Asked(t, i, id) && Asked(t, j, id) :: i == j
  }

  // What a worker publishes is no request.
  predicate PublisherSound(t: Tables, k: Worker) {
    k.Publishing? ==>
      forall j | 0 <= j < |k.todo| :: k.todo[j].id < |t.events| && t.events[k.todo[j].id].kind != PaymentRequested
  }

  ghost predicate Orderly(s: State) {
    && OneRequestEach(s.db)
    && forall w: nat :: PublisherSound(s.db, WorkerOf(s, w))
  }

  // A request event that a step adds is the first of its payment, and pending.
  ghost predicate AddsFirstRequests(t: Tables, t': Tables) {
    forall j: nat, id | |t.events| <= j && Asked(t', j, id) ::
      j == |t.events| && t'.events[j].status == Pending && forall i: nat | i < |t.events| :: !Asked(t, i, id)
  }

  lemma NoneAdded(t: Tables, t': Tables)
    requires forall j | |t.events| <= j < |t'.events| :: t'.events[j].kind != PaymentRequested
    ensures AddsFirstRequests(t, t')
  {
  }

  lemma AttemptAddsFirst(cfg: Settings, t: Tables, f: Fetched, seen: Option<Payment>, r: CallResult, delay: nat,
                         at: Stamp)
    requires IsRequest(t, f)
    ensures AddsFirstRequests(t, HandleRequest(cfg, t, f, seen, r, delay, at))
  {
    var t' := HandleRequest(cfg, t, f, seen, r, delay, at);
    if seen.Some? && WinsSwap(t, f.row.aggregate, seen.value.version) {
      var tail := WinnerEvents(cfg, t, f, seen.value, r, delay, at);
      EventsKeptIsLater(t, t', f.id, tail);
    } else {
      LoserEffect(cfg, t, f, seen, r, delay, at);
      EventsKeptIsLater(t, t', f.id, []);
    }
    NoneAdded(t, t');
  }

  lemma StepAddsFirst(cfg: Settings, s: State, step: Step)
    requires FleetSound(s) && EventsOwned(s.db) && Enabled(cfg, s, step)
    ensures AddsFirstRequests(s.db, Apply(cfg, s, step).db)
  {
    match step
    case Request(r, act) =>
      if act.Commit? && !Violates(s.db, s.requests[r].draft, act.otherViolation) {
        assert Create(s.db, s.requests[r].draft, act.at).events == s.db.events + OutboxFor(s.requests[r].draft, act.at);
      }
    case Review(id, approve, at) =>
      assert approve ==> Approve(s.db, id, at).events == s.db.events + [NewEvent(id, PaymentRequested, at)];
    case Work(w, act) =>
      assert WorkerSound(s.db, WorkerOf(s, w));
      if act.Attempt? {
        var k := WorkerOf(s, w);
        AttemptAddsFirst(cfg, s.db, k.todo[0], k.seen.row, act.result, act.delay, act.at);
      }
  }

  lemma OneRequestKept(t: Tables, t': Tables)
    requires OneRequestEach(t) && Later(t, t') && AddsFirstRequests(t, t')
    ensures OneRequestEach(t')
  {
    forall i: nat, j: nat, id | Asked(t', i, id) && Asked(t', j, id) ensures i == j {
      assert i < |t.events| ==> Asked(t, i, id);
      assert j < |t.events| ==> Asked(t, j, id);
    }
  }

  lemma LaterKeepsPublisher(t: Tables, t': Tables, k: Worker)
    requires PublisherSound(t, k) && Later(t, t')
    ensures PublisherSound(t', k)
  {
  }

  lemma OwnPublisherSound(cfg: Settings, s: State, w: nat, act: WorkerAction)
    requires PublisherSound(s.db, WorkerOf(s, w)) && WorkerEnabled(cfg, s, w, act)
    requires Later(s.db, ApplyWorker(cfg, s, w, act).db)
    ensures PublisherSound(ApplyWorker(cfg, s, w, act).db, WorkerOf(ApplyWorker(cfg, s, w, act), w))
  {
    var k := WorkerOf(s, w);
    if act.Publish? {
      assert forall j | 0 <= j < |k.todo| - 1 :: k.todo[1..][j] == k.todo[j + 1];
    }
  }

  lemma StepKeepsOrderly(cfg: Settings, s: State, step: Step)
    requires FleetSound(s) && EventsOwned(s.db) && Orderly(s) && Enabled(cfg, s, step)
    ensures Orderly(Apply(cfg, s, step))
  {
    var s' := Apply(cfg, s, step);
    StepIsLater(cfg, s, step);
    StepAddsFirst(cfg, s, step);
    OneRequestKept(s.db, s'.db);
    forall w: nat ensures PublisherSound(s'.db, WorkerOf(s', w)) {
      if step.Work? && step.w == w {
        OwnPublisherSound(cfg, s, w, step.work);
      } else {
        assert WorkerOf(s', w) == WorkerOf(s, w);
        LaterKeepsPublisher(s.db, s'.db, WorkerOf(s, w));
      }
    }
  }

  lemma {:induction false} FleetStaysOrderly(cfg: Settings, states: seq<State>, steps: seq<Step>, k: nat)
    requires IsRun(cfg, states, steps) && states[0] == START && k <= |steps|
    ensures Orderly(states[k]) && FleetSound(states[k]) && EventsOwned(states[k].db)
  {
    FleetStaysSound(cfg, states, steps, k);
    FleetAccounting(cfg, states, steps, k);
    if k > 0 {
      FleetStaysOrderly(cfg, states, steps, k - 1);
      StepKeepsOrderly(cfg, states[k - 1], steps[k - 1]);
    }
  }

  // ----- What a step does to the requests -----

  // The request events of one payment keep their status.
  ghost predicate RequestsKept(t: Tables, t': Tables, id: PaymentId) {
    forall i: nat | i < |t.events| :: Asks(t, i, id) <==> Asks(t', i, id)
  }

  lemma StillRequested(t: Tables, t': Tables, id: PaymentId)
    requires RequestsKept(t, t', id) && Requested(t, id)
    ensures Requested(t', id)
  {
    var i: nat :| Asks(t, i, id);
    assert Asks(t', i, id);
  }

  lemma EventsKeptKeepsRequests(t: Tables, t': Tables, i: nat, tail: seq<Event>, id: PaymentId)
    requires EventsKept(t.events, t'.events, i, tail) && !Asked(t, i, id)
    ensures RequestsKept(t, t', id)
  {
  }

  lemma TheRequestDecides(t: Tables, i: nat, id: PaymentId)
    requires OneRequestEach(t) && Asked(t, i, id)
    ensures Requested(t, id) <==> t.events[i].status == Pending
  {
    if t.events[i].status == Pending {
      assert Asks(t, i, id);
    } else if Requested(t, id) {
      var j: nat :| Asks(t, j, id);
      assert Asked(t, j, id);
    }
  }

  // A loser closes the request it holds.
  lemma LoserCloses(cfg: Settings, t: Tables, f: Fetched, seen: Option<Payment>, r: CallResult, delay: nat, at: Stamp)
    requires IsRequest(t, f) && (seen.None? || !WinsSwap(t, f.row.aggregate, seen.value.version))
    ensures var t' := HandleRequest(cfg, t, f, seen, r, delay, at);
      f.id < |t'.events| && t'.events[f.id].status != Pending
  {
  }

  // A winner leaves its payment open exactly when it does not finalise, and then the request as it was.
  lemma WinnerLeaves(cfg: Settings, t: Tables, f: Fetched, p: Payment, r: CallResult, delay: nat, at: Stamp)
    requires IsRequest(t, f) && WinsSwap(t, f.row.aggregate, p.version)
    ensures var t' := HandleRequest(cfg, t, f, Some(p), r, delay, at);
      && f.row.aggregate in t'.payments
      && Open(t'.payments[f.row.aggregate].status) == !Finalises(cfg, f, r)
      && (!Finalises(cfg, f, r) ==> f.id < |t'.events| && t'.events[f.id].status == t.events[f.id].status)
  {
  }

  // What an attempt leaves of the payment it is about decides.
  lemma AttemptDecides(t: Tables, t': Tables, i: nat, tail: seq<Event>, id: PaymentId)
    requires AllRequested(t) && OneRequestEach(t') && EventsKept(t.events, t'.events, i, tail)
    requires Asked(t, i, id) && id in t.payments && id in t'.payments
    requires t'.payments == t.payments[id := t'.payments[id]]
    ensures i < |t'.events| && (AllRequested(t') <==> (Open(t'.payments[id].status) ==> t'.events[i].status == Pending))
  {
    assert Asked(t', i, id);
    TheRequestDecides(t', i, id);
    forall q | q in t'.payments && q != id && Open(t'.payments[q].status) ensures Requested(t', q) {
      EventsKeptKeepsRequests(t, t', i, tail, q);
      StillRequested(t, t', q);
    }
  }

  lemma AttemptStrandsExactlyWhen(cfg: Settings, s: State, step: Step)
    requires FleetSound(s) && EventsOwned(s.db) && Orderly(s) && AllRequested(s.db) && Enabled(cfg, s, step)
    requires step.Work? && step.work.Attempt?
    ensures AllRequested(Apply(cfg, s, step).db) <==> !Strands(cfg, s, step)
  {
    var k, act := WorkerOf(s, step.w), step.work;
    var f, t := k.todo[0], s.db;
    var t' := HandleRequest(cfg, t, f, k.seen.row, act.result, act.delay, act.at);
    assert WorkerSound(t, k) && IsRequest(t, f);
    assert Asked(t, f.id, f.row.aggregate);
    StepKeepsOrderly(cfg, s, step);
    if Winning(s, step.w) {
      WinnerPayments(cfg, t, f, k.seen.row.value, act.result, act.delay, act.at);
      WinnerLeaves(cfg, t, f, k.seen.row.value, act.result, act.delay, act.at);
      var tail := WinnerEvents(cfg, t, f, k.seen.row.value, act.result, act.delay, act.at);
      AttemptDecides(t, t', f.id, tail, f.row.aggregate);
    } else {
      LoserEffect(cfg, t, f, k.seen.row, act.result, act.delay, act.at);
      LoserCloses(cfg, t, f, k.seen.row, act.result, act.delay, act.at);
      assert t.payments == t.payments[f.row.aggregate := t.payments[f.row.aggregate]];
      AttemptDecides(t, t', f.id, [], f.row.aggregate);
    }
  }

  // Every other step leaves all requests alone.
  lemma PublishKeepsRequests(cfg: Settings, t: Tables, f: Fetched, published: bool, delay: nat, at: Stamp,
                             id: PaymentId)
    requires f.id < |t.events| && t.events[f.id].kind != PaymentRequested
    ensures RequestsKept(t, HandleFanout(cfg, t, f, published, delay, at), id)
  {
  }

  lemma QuietKeepsRequests(cfg: Settings, s: State, step: Step, id: PaymentId)
    requires FleetSound(s) && Orderly(s) && Enabled(cfg, s, step) && !(step.Work? && step.work.Attempt?)
    ensures RequestsKept(s.db, Apply(cfg, s, step).db, id)
  {
    if step.Work? && step.work.Publish? {
      var k := WorkerOf(s, step.w);
      assert PublisherSound(s.db, k);
      PublishKeepsRequests(cfg, s.db, k.todo[0], step.work.published, step.work.delay, step.work.at, id);
    }
  }

  lemma QuietStepKeepsRequested(cfg: Settings, s: State, step: Step)
    requires FleetSound(s) && Orderly(s) && AllRequested(s.db) && Enabled(cfg, s, step)
    requires !(step.Work? && step.work.Attempt?)
    ensures AllRequested(Apply(cfg, s, step).db)
  {
    var t, t' := s.db, Apply(cfg, s, step).db;
    forall id | id in t'.payments && Open(t'.payments[id].status) ensures Requested(t', id) {
      if id in t.payments && Open(t.payments[id].status) {
        QuietKeepsRequests(cfg, s, step, id);
        StillRequested(t, t', id);
      } else {
        NewlyOpen(cfg, s, step, id);
      }
    }
  }

  // A payment is created as RECEIVED, or approved, together with its request.
  lemma NewlyOpen(cfg: Settings, s: State, step: Step, id: PaymentId)
    requires Enabled(cfg, s, step) && !(step.Work? && step.work.Attempt?)
    requires id in Apply(cfg, s, step).db.payments && Open(Apply(cfg, s, step).db.payments[id].status)
    requires id in s.db.payments ==> !Open(s.db.payments[id].status)
    ensures Requested(Apply(cfg, s, step).db, id)
  {
    var t' := Apply(cfg, s, step).db;
    assert Asks(t', |s.db.events|, id);
  }

  lemma StepStrandsExactlyWhen(cfg: Settings, s: State, step: Step)
    requires FleetSound(s) && EventsOwned(s.db) && Orderly(s) && AllRequested(s.db) && Enabled(cfg, s, step)
    ensures AllRequested(Apply(cfg, s, step).db) <==> !Strands(cfg, s, step)
  {
    if step.Work? && step.work.Attempt? {
      AttemptStrandsExactlyWhen(cfg, s, step);
    } else {
      QuietStepKeepsRequested(cfg, s, step);
    }
  }

  lemma RequestedAfter(cfg: Settings, states: seq<State>, steps: seq<Step>, k: nat)
    requires IsRun(cfg, states, steps) && states[0] == START && k < |steps| && AllRequested(states[k].db)
    ensures AllRequested(states[k + 1].db) <==> !Strands(cfg, states[k], steps[k])
  {
    FleetStaysOrderly(cfg, states, steps, k);
    StepStrandsExactlyWhen(cfg, states[k], steps[k]);
  }

  // In every run with any number of workers: at every point each RECEIVED or PROCESSING payment has a
  // pending request, if and only if no attempt of the run strands one.
  lemma RequestedThroughoutExactlyWhen(cfg: Settings, states: seq<State>, steps: seq<Step>)
    requires IsRun(cfg, states, steps) && states[0] == START
    ensures (forall k | 0 <= k <= |steps| :: AllRequested(states[k].db))
      <==> (forall k | 0 <= k < |steps| :: !Strands(cfg, states[k], steps[k]))
  {
    var n := |steps|;
    var holds := seq(n + 1, k requires 0 <= k <= n => AllRequested(states[k].db));
    var good := seq(n, k requires 0 <= k < n => !Strands(cfg, states[k], steps[k]));
    forall k | 0 <= k < n && holds[k] ensures holds[k + 1] == good[k] {
      RequestedAfter(cfg, states, steps, k);
    }
    KeptThroughout(holds, good, n);
    assert forall k | 0 <= k <= n :: holds[k] == AllRequested(states[k].db);
    assert forall k | 0 <= k < n :: good[k] == !Strands(cfg, states[k], steps[k]);
  }

  // ----- A single worker strands nothing -----

  lemma SoundIsRequested(cfg: Settings, t: Tables)
    requires Sound(cfg, t)
    ensures AllRequested(t)
  {
    forall id | id in t.payments && Open(t.payments[id].status) ensures Requested(t, id) {
      var i := FindHit(t.events, id, RequestPending);
      assert Asks(t, i, id);
    }
  }

  lemma OneWorkerStrandsNothing(cfg: Settings, states: seq<State>, steps: seq<Step>, k: nat)
    requires IsSoloRun(cfg, states, steps) && states[0] == START && k < |steps|
    ensures !Strands(cfg, states[k], steps[k])
  {
    SingleWorker.LedgerInvariant(cfg, states, steps, k);
    SingleWorker.LedgerInvariant(cfg, states, steps, k + 1);
    SoundIsRequested(cfg, states[k].db);
    SoundIsRequested(cfg, states[k + 1].db);
    RequestedAfter(cfg, states, steps, k);
  }

  // ----- A stranded payment -----

  predicate Holds(k: Worker, id: PaymentId) {
    k.Handling? && exists j :: 0 <= j < |k.todo| && k.todo[j].row.aggregate == id
  }

  // In work, without a pending request, and in no worker's batch.
  ghost predicate Stranded(s: State, id: PaymentId) {
    && id in s.db.payments && Open(s.db.payments[id].status) && !Requested(s.db, id)
    && forall w: nat :: !Holds(WorkerOf(s, w), id)
  }

  lemma NoNewRequest(cfg: Settings, s: State, step: Step, id: PaymentId, j: nat)
    requires FleetSound(s) && EventsOwned(s.db) && Enabled(cfg, s, step)
    requires id in s.db.payments && !InReview(s.db, id) && |s.db.events| <= j
    ensures !Asks(Apply(cfg, s, step).db, j, id)
  {
    match step
    case Request(r, act) =>
      if act.Commit? && !Violates(s.db, s.requests[r].draft, act.otherViolation) {
        assert Create(s.db, s.requests[r].draft, act.at).events == s.db.events + OutboxFor(s.requests[r].draft, act.at);
      }
    case Review(q, approve, at) =>
      assert approve ==> Approve(s.db, q, at).events == s.db.events + [NewEvent(q, PaymentRequested, at)];
    case Work(w, act) =>
      StepAddsFirst(cfg, s, step);
      assert WorkerSound(s.db, WorkerOf(s, w));
      if act.Attempt? {
        var k := WorkerOf(s, w);
        AttemptAddsNone(cfg, s.db, k.todo[0], k.seen.row, act.result, act.delay, act.at, j, id);
      }
  }

  lemma AttemptAddsNone(cfg: Settings, t: Tables, f: Fetched, seen: Option<Payment>, r: CallResult, delay: nat,
                        at: Stamp, j: nat, id: PaymentId)
    requires |t.events| <= j
    ensures !Asks(HandleRequest(cfg, t, f, seen, r, delay, at), j, id)
  {
    var t' := HandleRequest(cfg, t, f, seen, r, delay, at);
    if seen.Some? && WinsSwap(t, f.row.aggregate, seen.value.version) {
      var tail := WinnerEvents(cfg, t, f, seen.value, r, delay, at);
      EventsKeptIsLater(t, t', f.id, tail);
    } else {
      LoserEffect(cfg, t, f, seen, r, delay, at);
      EventsKeptIsLater(t, t', f.id, []);
    }
  }

  lemma AttemptElsewhere(cfg: Settings, s: State, w: nat, act: WorkerAction, id: PaymentId)
    requires FleetSound(s) && act.Attempt? && WorkerEnabled(cfg, s, w, act) && id in s.db.payments
    requires WorkerOf(s, w).todo[0].row.aggregate != id
    ensures var t' := ApplyWorker(cfg, s, w, act).db;
      && id in t'.payments && t'.payments[id] == s.db.payments[id]
      && Outcomes(t'.events, id) == Outcomes(s.db.events, id) && RequestsKept(s.db, t', id)
  {
    var k := WorkerOf(s, w);
    var f := k.todo[0];
    assert WorkerSound(s.db, k) && IsRequest(s.db, f);
    SwapDecides(cfg, s, w, act, id);
    if Winning(s, w) {
      WinOutcome(cfg, s, Work(w, act), id);
      var tail := WinnerEvents(cfg, s.db, f, k.seen.row.value, act.result, act.delay, act.at);
      EventsKeptKeepsRequests(s.db, ApplyWorker(cfg, s, w, act).db, f.id, tail, id);
    } else {
      LoserEffect(cfg, s.db, f, k.seen.row, act.result, act.delay, act.at);
      EventsKeptKeepsRequests(s.db, ApplyWorker(cfg, s, w, act).db, f.id, [], id);
    }
  }

  lemma StillNotHeld(cfg: Settings, s: State, step: Step, id: PaymentId, w: nat)
    requires Enabled(cfg, s, step) && !Requested(s.db, id) && !Holds(WorkerOf(s, w), id)
    ensures !Holds(WorkerOf(Apply(cfg, s, step), w), id)
  {
    var k, k' := WorkerOf(s, w), WorkerOf(Apply(cfg, s, step), w);
    if step.Work? && step.w == w && k'.Handling? {
      forall j | 0 <= j < |k'.todo| ensures k'.todo[j].row.aggregate != id {
        if step.work.FetchRequests? {
          assert !Asks(s.db, k'.todo[j].id, id);
        } else if step.work.Attempt? {
          assert k'.todo[j] == k.todo[j + 1];
        }
      }
    }
  }

  lemma StepKeepsStranded(cfg: Settings, s: State, step: Step, id: PaymentId)
    requires FleetSound(s) && EventsOwned(s.db) && Orderly(s) && Stranded(s, id) && Enabled(cfg, s, step)
    ensures var s' := Apply(cfg, s, step);
      && Stranded(s', id) && s'.db.payments[id] == s.db.payments[id]
      && Outcomes(s'.db.events, id) == Outcomes(s.db.events, id)
  {
    var s' := Apply(cfg, s, step);
    if step.Work? && step.work.Attempt? {
      assert !Holds(WorkerOf(s, step.w), id);
      AttemptElsewhere(cfg, s, step.w, step.work, id);
    } else {
      QuietKeepsRequests(cfg, s, step, id);
      QuietOutcome(cfg, s, step, id);
    }
    forall j: nat ensures !Asks(s'.db, j, id) {
      if j >= |s.db.events| {
        NoNewRequest(cfg, s, step, id, j);
      }
    }
    forall w: nat ensures !Holds(WorkerOf(s', w), id) {
      StillNotHeld(cfg, s, step, id, w);
    }
  }

  // Nothing any actor does reaches it again: it is open for ever and gets no outcome.
  lemma {:induction false} StrandedIsForEver(cfg: Settings, states: seq<State>, steps: seq<Step>, id: PaymentId,
                                             j: nat, k: nat)
    requires IsRun(cfg, states, steps) && states[0] == START && j <= k <= |steps| && Stranded(states[j], id)
    ensures Stranded(states[k], id) && states[k].db.payments[id] == states[j].db.payments[id]
    ensures Outcomes(states[k].db.events, id) == Outcomes(states[j].db.events, id)
    decreases k
  {
    if j < k {
      StrandedIsForEver(cfg, states, steps, id, j, k - 1);
      FleetStaysOrderly(cfg, states, steps, k - 1);
      StepKeepsStranded(cfg, states[k - 1], steps[k - 1], id);
    }
  }

  // ----- A run with two workers that strands a payment -----

  const PUT_OFF := Attempt(ProcessorFailure(""), 1, 1, AT)
  const LOSE := Attempt(OtherFailure, 0, 0, AT)

  lemma BothRead(cfg: Settings, scope: Scope) returns (states: seq<State>, steps: seq<Step>)
    ensures IsRun(cfg, states, steps) && states[0] == START
    ensures forall k | 0 <= k < |steps| && steps[k].Work? ::
      steps[k].w < 2 && !steps[k].work.Crash? && !steps[k].work.Attempt?
    ensures var s := states[|steps|]; var k := Handling(BATCH, Read(Some(Accepted(scope).payments[0])));
      && s.db == Accepted(scope) && s.db.events == [ROW] && s.history.calls == multiset{}
      && s.workers == map[0 := k, 1 := k]
  {
    states, steps := BothFetch(cfg, scope);
    var k := Handling(BATCH, Read(Some(Accepted(scope).payments[0])));
    states, steps := Extend(cfg, states, steps, Work(0, ReadPayment));
    assert states[|steps|].workers == map[0 := k, 1 := Handling(BATCH, NotRead)];
    states, steps := Extend(cfg, states, steps, Work(1, ReadPayment));
    assert states[|steps|].workers == map[0 := k, 1 := k];
  }

  // The tables after the first worker has put the request off.
  function PutOff(scope: Scope): Tables {
    Tables(Accepted(scope).payments[0 := Accepted(scope).payments[0].(status := PROCESSING, version := 2)],
           [ROW.(attempts := 1, nextAttemptAt := 1)], Accepted(scope).snapshots)
  }

  lemma FirstPutsOff(cfg: Settings, scope: Scope, s: State)
    requires cfg.maxAttempts >= 2 && s.db == Accepted(scope) && s.history.calls == multiset{}
    requires var k := Handling(BATCH, Read(Some(Accepted(scope).payments[0]))); s.workers == map[0 := k, 1 := k]
    ensures Enabled(cfg, s, Work(0, PUT_OFF)) && !WinsOnTerminal(s, Work(0, PUT_OFF))
    ensures var s' := Apply(cfg, s, Work(0, PUT_OFF));
      && s'.db == PutOff(scope) && s'.history.calls[0] == 1
      && s'.workers == map[0 := Handling([], NotRead), 1 := Handling(BATCH, Read(Some(Accepted(scope).payments[0])))]
  {
    assert BATCH[1..] == [];
    assert s.db.events == [ROW];
  }

  lemma SecondLoses(cfg: Settings, scope: Scope, s: State, p: Payment)
    requires s.db == PutOff(scope) && p.version == 1
    requires s.workers == map[0 := Handling([], NotRead), 1 := Handling(BATCH, Read(Some(p)))]
    ensures Enabled(cfg, s, Work(1, LOSE)) && !WinsOnTerminal(s, Work(1, LOSE))
    ensures var s' := Apply(cfg, s, Work(1, LOSE));
      && Stranded(s', 0) && s'.db.payments == s.db.payments && s'.history == s.history
      && s'.db.events == [ROW.(attempts := 1, nextAttemptAt := 1, status := Sent)]
  {
    var s' := Apply(cfg, s, Work(1, LOSE));
    assert BATCH[1..] == [];
    assert s'.workers == map[0 := Handling([], NotRead), 1 := Handling([], NotRead)];
    assert s'.db.events == [ROW.(attempts := 1, nextAttemptAt := 1, status := Sent)];
  }

  // Both read the payment before either goes on. The first wins, the provider fails, and the request is put
  // off; the second loses and marks the request as sent. No attempt wins on a terminal payment, nobody
  // crashes, and the payment stays PROCESSING, with one provider call and no outcome.
  lemma LoserStrandsARetry(cfg: Settings, scope: Scope) returns (states: seq<State>, steps: seq<Step>)
    requires cfg.maxAttempts >= 2
    ensures IsRun(cfg, states, steps) && states[0] == START
    ensures forall k | 0 <= k < |steps| && steps[k].Work? :: steps[k].w < 2 && !steps[k].work.Crash?
    ensures forall k | 0 <= k < |steps| :: !WinsOnTerminal(states[k], steps[k])
    ensures var s := states[|steps|];
      && Stranded(s, 0) && s.db.payments[0].status == PROCESSING && s.history.calls[0] == 1
      && Outcomes(s.db.events, 0) == 0
  {
    var early, before := BothRead(cfg, scope);
    var n := |before|;
    NoAttemptWins(early, before);
    FirstPutsOff(cfg, scope, early[n]);
    var middle, most := Extend(cfg, early, before, Work(0, PUT_OFF));
    NoneWinsYet(early, before, middle, most);
    SecondLoses(cfg, scope, middle[n + 1], Accepted(scope).payments[0]);
    states, steps := Extend(cfg, middle, most, Work(1, LOSE));
    NoneWinsYet(middle, most, states, steps);
    NoOutcomeOfARequest(states[n + 2].db.events);
  }

  lemma NoAttemptWins(states: seq<State>, steps: seq<Step>)
    requires |states| == |steps| + 1 && forall k | 0 <= k < |steps| && steps[k].Work? :: !steps[k].work.Attempt?
    ensures forall k | 0 <= k < |steps| :: !WinsOnTerminal(states[k], steps[k])
  {
  }

  lemma NoneWinsYet(states: seq<State>, steps: seq<Step>, states': seq<State>, steps': seq<Step>)
    requires |states| == |steps| + 1 && |states'| == |states| + 1 && |steps'| == |steps| + 1
    requires states <= states' && steps <= steps'
    requires forall k | 0 <= k < |steps| :: !WinsOnTerminal(states[k], steps[k])
    requires !WinsOnTerminal(states[|steps|], steps'[|steps|])
    ensures forall k | 0 <= k < |steps'| :: !WinsOnTerminal(states'[k], steps'[k])
  {
  }

  lemma NoOutcomeOfARequest(es: seq<Event>)
    requires |es| == 1 && es[0].kind == PaymentRequested
    ensures Outcomes(es, 0) == 0
  {
    assert Count(es[..0], 0, WasConfirmed) == 0 && Count(es[..0], 0, WasFailed) == 0;
  }
}
