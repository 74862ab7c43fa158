/** The worker's iteration: it handles a batch of payment requests and then publishes a batch of
    outcome events, committing after each one. */
module OutboxWorker {
  import opened Contracts
  import opened Store
  import opened Protocol
  import opened Journeys
  import opened Tick
  import opened Backoff
  import opened Retry
  import opened CallProvider
  import opened Sessions
  import opened ProcessorRepositories
  import opened ProcessorCommands
  import opened Rounding

  // Clock ticks are microseconds; a delay is rounded to them.
  function Ticks(seconds: real): (t: nat)
    requires 0.0 <= seconds <= 6.25
    ensures t <= LONGEST_DELAY
  {
    RoundHalfEven(seconds * 1000000.0)
  }

  const LONGEST_DELAY := 6250000

  // What the draw of the jitter can be: at most a quarter of the cap of five seconds.
  type Draw = d: real | -1.25 <= d <= 1.25

  function RetryDelay(attempts: nat, draw: Draw): (t: nat)
    ensures t <= LONGEST_DELAY
  {
    Ticks(Delay(attempts, 0.5, 5.0, draw))
  }

  // Every fair draw is one.
  lemma FairDrawsAreDraws(attempts: nat, draw: real)
    requires InSpread(draw, Nominal(attempts, 0.5, 5.0), 0.25)
    ensures -1.25 <= draw <= 1.25
  {
    NominalBounds(attempts, 0.5, 5.0);
  }

  // The delay is the nominal one of half a second, doubled for each further attempt up to five seconds, give
  // or take a quarter, to the tick.
  lemma RetryDelayIsBackoff(attempts: nat, draw: Draw)
    requires InSpread(draw, Nominal(attempts, 0.5, 5.0), 0.25)
    ensures var seconds := Nominal(attempts, 0.5, 5.0);
      && seconds == (if attempts <= 1 then 0.5 else if attempts == 2 then 1.0 else if attempts == 3 then 2.0
                     else if attempts == 4 then 4.0 else 5.0)
      && 0.75 * seconds * 1000000.0 - 0.5 <= RetryDelay(attempts, draw) as real <= 1.25 * seconds * 1000000.0 + 0.5
  {
    NominalDoubles(1, 0.5, 5.0);
    NominalDoubles(2, 0.5, 5.0);
    NominalDoubles(3, 0.5, 5.0);
    NominalDoubles(4, 0.5, 5.0);
    NominalDoubles(attempts, 0.5, 5.0);
    if attempts >= 5 {
      NominalNeverFalls(5, attempts, 0.5, 5.0);
      NominalBounds(attempts, 0.5, 5.0);
    }
    DelayIsCloseToNominal(attempts, 0.5, 5.0, 0.25, draw);
  }

  // What the provider and the clock do while one request is handled: `call(k)` is the outcome of the
  // k-th provider call, `draw` is the random part of the delay.
  datatype Surroundings = Surroundings(
    provider: string, call: nat -> Try<Answer, CallError>, asked: Time, ended: Time, draw: Draw, at: Stamp)

  datatype BusAnswer = BusAnswer(published: bool, draw: Draw, at: Stamp)

  type WorkerStep = Move<Worker, WorkerAction>

  // ----- The bookkeeping of the two loops -----

  // The first `i` events of a batch were handled, one read and one attempt each, since the batch was fetched.
  ghost predicate Handled(cfg: Settings, events: seq<Fetched>, i: nat, asks: Asks, others: Others,
                          charges: seq<Charge>, moves: seq<WorkerStep>, now: Tables)
    requires i <= |events|
  {
    && |moves| == 1 + 2 * i && AreWorkerMoves(cfg, moves) && Leaves(moves, now)
    && Journey(Idle, moves, Handling(events[i..], NotRead), others, 0)
    && |charges| == i && Charged(asks, Attempts(moves), charges)
    && (Undisturbed(moves) ==> now == HandleAll(cfg, others(0), events[..i], charges))
  }

  // The breakers of the provider command with their memory before each attempt, and what surrounds it.
  datatype Asks = Asks(breakers: Breakers, memories: seq<Memories>, env: nat -> Surroundings)

  // An attempt that wins the compare-and-set asks the provider, through breaker and retry loop; one that
  // loses it does not.
  ghost predicate FairCharge(breakers: Breakers, won: bool, used: nat, before: Memories, c: Charge, env: Surroundings,
                             after: Memories)
  {
    && c.delay == (if won then RetryDelay(used, env.draw) else 0) && c.at == env.at
    && if won
       then Executed(breakers, before, env.provider, env.call, env.asked, env.ended, c.result, c.calls, after)
       else c.calls == 0 && c.result == OtherFailure && after == before
  }

  // The attempts of the request at hand, this one included.
  function UsedBy(k: Worker): nat {
    if k.Handling? && k.todo != [] then k.todo[0].row.attempts + 1 else 0
  }

  // The attempt that was taken is the one that was charged for.
  ghost predicate ChargedMove(breakers: Breakers, m: WorkerStep, before: Memories, c: Charge, env: Surroundings,
                              after: Memories)
  {
    && m.act == Attempt(c.result, c.calls, c.delay, c.at)
    && FairCharge(breakers, Claims(m.before, m.phase), UsedBy(m.phase), before, c, env, after)
  }

  ghost predicate Charged(asks: Asks, attempts: seq<WorkerStep>, charges: seq<Charge>) {
    && |attempts| == |charges| && |asks.memories| == |charges| + 1
    && forall k | 0 <= k < |charges| ::
         ChargedMove(asks.breakers, attempts[k], asks.memories[k], charges[k], asks.env(k), asks.memories[k + 1])
  }

  // The attempts of a batch: they are every second move behind the fetch.
  function Attempts(moves: seq<WorkerStep>): (attempts: seq<WorkerStep>)
    ensures |attempts| == if |moves| == 0 then 0 else (|moves| - 1) / 2
  {
    var n := |moves|;
    if n <= 2 then [] else Attempts(moves[..n - 2]) + [moves[n - 1]]
  }

  lemma OneMoreAttempt(moves: seq<WorkerStep>, more: seq<WorkerStep>)
    requires |moves| >= 1 && |more| == 2
    ensures Attempts(moves + more) == Attempts(moves) + [more[1]]
  {
    assert (moves + more)[..|moves|] == moves;
  }

  function And(asks: Asks, after: Memories): Asks {
    asks.(memories := asks.memories + [after])
  }

  lemma OneMoreCharged(asks: Asks, attempts: seq<WorkerStep>, charges: seq<Charge>, m: WorkerStep, c: Charge,
                       after: Memories)
    requires Charged(asks, attempts, charges)
    requires ChargedMove(asks.breakers, m, asks.memories[|charges|], c, asks.env(|charges|), after)
    ensures Charged(And(asks, after), attempts + [m], charges + [c])
  {
  }

  lemma Head(events: seq<Fetched>, i: nat)
    requires i < |events|
    ensures events[i..] == [events[i]] + events[i + 1..]
  {
  }

  lemma OneMoreHandled(cfg: Settings, events: seq<Fetched>, i: nat, asks: Asks, others: Others,
                       from: nat, charges: seq<Charge>, moves: seq<WorkerStep>, now: Tables,
                       c: Charge, more: seq<WorkerStep>, now': Tables, after: Memories)
    requires i < |events| && Handled(cfg, events, i, asks, others, charges, moves, now) && from == |moves|
    requires |more| == 2 && AreWorkerMoves(cfg, more) && Leaves(more, now')
    requires ChargedMove(asks.breakers, more[1], asks.memories[i], c, asks.env(i), after)
    requires Journey(Handling(events[i..], NotRead), more, Handling(events[i + 1..], NotRead), others, from)
    requires others(from + 1) == others(from) ==> now' == HandleOne(cfg, others(from), events[i], c)
    requires more[0].after == more[0].before
    ensures Handled(cfg, events, i + 1, And(asks, after), others, charges + [c], moves + more, now')
  {
    OneMoreAttempt(moves, more);
    OneMoreCharged(asks, Attempts(moves), charges, more[1], c, after);
    Join(Idle, moves, Handling(events[i..], NotRead), more, Handling(events[i + 1..], NotRead), others, 0, from);
    WorkerMovesTogether(cfg, moves, more);
    MovesAreNumbered(Handling(events[i..], NotRead), more, Handling(events[i + 1..], NotRead), others, from);
    StillAllTogether(cfg, others, from, events, i, charges, moves, now, c, more, now');
  }

  lemma StillAllTogether(cfg: Settings, others: Others, from: nat, events: seq<Fetched>, i: nat, charges: seq<Charge>,
                         moves: seq<WorkerStep>, now: Tables, c: Charge, more: seq<WorkerStep>, now': Tables)
    requires i < |events| && |charges| == i && Leaves(moves, now) && |more| == 2 && more[0].after == more[0].before
    requires Undisturbed(moves) ==> now == HandleAll(cfg, others(0), events[..i], charges)
    requires others(from + 1) == others(from) ==> now' == HandleOne(cfg, others(from), events[i], c)
    requires forall k | 0 <= k < 2 :: more[k].before == others(from + k)
    ensures Undisturbed(moves + more) ==> now' == HandleAll(cfg, others(0), events[..i + 1], charges + [c])
  {
    if Undisturbed(moves + more) {
      ReadIsCurrent(moves, more);
      assert more[0].before == others(from + 0) && more[1].before == others(from + 1);
      AllTogether(cfg, others(0), events, i, charges, c, now, now');
    }
  }

  // Undisturbed, the payment is read from the tables as the last event left them, and claimed on the same.
  lemma ReadIsCurrent(moves: seq<WorkerStep>, more: seq<WorkerStep>)
    requires |moves| > 0 && |more| == 2 && Undisturbed(moves + more) && more[0].after == more[0].before
    ensures Undisturbed(moves) && more[1].before == more[0].before == moves[|moves| - 1].after
  {
    UndisturbedParts(moves, more);
  }

  lemma AllTogether(cfg: Settings, t: Tables, events: seq<Fetched>, i: nat, charges: seq<Charge>, c: Charge,
                    now: Tables, now': Tables)
    requires i < |events| && |charges| == i && now == HandleAll(cfg, t, events[..i], charges)
    requires now' == HandleOne(cfg, now, events[i], c)
    ensures now' == HandleAll(cfg, t, events[..i + 1], charges + [c])
  {
    assert events[..i + 1][..i] == events[..i] && (charges + [c])[..i] == charges;
  }

  // The first `i` events of a fan-out batch were published or put off.
  ghost predicate Delivered(cfg: Settings, events: seq<Fetched>, i: nat, answers: nat -> BusAnswer, others: Others,
                            from: nat, deliveries: seq<Delivery>, moves: seq<WorkerStep>, now: Tables)
    requires i <= |events|
  {
    && |moves| == 1 + i && AreWorkerMoves(cfg, moves) && Leaves(moves, now)
    && Journey(Handling([], NotRead), moves, Publishing(events[i..]), others, from)
    && |deliveries| == i && BusAnswered(events, deliveries, answers) && PublishedIn(moves, 1, deliveries)
    && (Undisturbed(moves) ==> now == PublishAll(cfg, others(from), events[..i], deliveries))
  }

  // An event is taken when the bus took it, and put off by the backoff of its attempts otherwise.
  predicate FairDelivery(f: Fetched, d: Delivery, answer: BusAnswer) {
    && d.published == answer.published && d.at == answer.at
    && d.delay == if answer.published then 0 else RetryDelay(f.row.attempts + 1, answer.draw)
  }

  ghost predicate BusAnswered(events: seq<Fetched>, deliveries: seq<Delivery>, answers: nat -> BusAnswer) {
    |deliveries| <= |events| && forall k | 0 <= k < |deliveries| :: FairDelivery(events[k], deliveries[k], answers(k))
  }

  // The moves behind the first `n` publish these deliveries.
  ghost predicate PublishedIn(moves: seq<WorkerStep>, n: nat, deliveries: seq<Delivery>) {
    && (deliveries != [] ==> n + |deliveries| <= |moves|)
    && forall k | 0 <= k < |deliveries| ::
         moves[n + k].act == Publish(deliveries[k].published, deliveries[k].delay, deliveries[k].at)
  }

  lemma OneMoreDelivered(cfg: Settings, events: seq<Fetched>, i: nat, answers: nat -> BusAnswer, others: Others,
                         from: nat, at: nat, deliveries: seq<Delivery>, moves: seq<WorkerStep>, now: Tables,
                         d: Delivery, m: WorkerStep, now': Tables)
    requires i < |events| && Delivered(cfg, events, i, answers, others, from, deliveries, moves, now)
    requires at == from + |moves| && IsWorkerMove(cfg, m) && m.before == others(at) && m.after == now'
    requires m.phase == Publishing(events[i..]) && m.next == Publishing(events[i + 1..])
    requires now' == PublishOne(cfg, others(at), events[i], d)
    requires FairDelivery(events[i], d, answers(i)) && m.act == Publish(d.published, d.delay, d.at)
    ensures Delivered(cfg, events, i + 1, answers, others, from, deliveries + [d], moves + [m], now')
  {
    OneMove(m, others, at);
    Join(Handling([], NotRead), moves, Publishing(events[i..]), [m], Publishing(events[i + 1..]), others, from, at);
    OneWorkerMove(cfg, m);
    WorkerMovesTogether(cfg, moves, [m]);
    if Undisturbed(moves + [m]) {
      UndisturbedParts(moves, [m]);
      PublishedTogether(cfg, others(from), events, i, deliveries, d, now, now');
    }
  }

  lemma PublishedTogether(cfg: Settings, t: Tables, events: seq<Fetched>, i: nat, ds: seq<Delivery>, d: Delivery,
                          now: Tables, now': Tables)
    requires i < |events| && |ds| == i && now == PublishAll(cfg, t, events[..i], ds)
    requires now' == PublishOne(cfg, now, events[i], d)
    ensures now' == PublishAll(cfg, t, events[..i + 1], ds + [d])
  {
    assert events[..i + 1][..i] == events[..i] && (ds + [d])[..i] == ds;
  }

  // Behind the two fetches.
  lemma RequestsFetched(cfg: Settings, others: Others, now: Time, events: seq<Fetched>, asks: Asks)
    returns (fetch: WorkerStep)
    requires IsBatch(others(0), false, now, cfg.batchSize, events) && |asks.memories| == 1
    ensures Handled(cfg, events, 0, asks, others, [], [fetch], others(0))
  {
    fetch := Move(others(0), Idle, FetchRequests(now, events), others(0), Handling(events, NotRead));
    OneMove(fetch, others, 0);
    OneWorkerMove(cfg, fetch);
    assert events[0..] == events && events[..0] == [];
  }

  lemma FanoutFetched(cfg: Settings, others: Others, from: nat, now: Time, events: seq<Fetched>,
                      answers: nat -> BusAnswer)
    returns (moves: seq<WorkerStep>)
    requires cfg.publishes && IsBatch(others(from), true, now, cfg.batchSize, events)
    ensures Delivered(cfg, events, 0, answers, others, from, [], moves, others(from))
  {
    var t, idle: Worker := others(from), Handling([], NotRead);
    var fetch: WorkerStep := Move(t, idle, FetchFanout(now, events), t, Publishing(events));
    moves := [fetch];
    OneMove(fetch, others, from);
    OneWorkerMove(cfg, fetch);
    assert events[0..] == events && events[..0] == [];
  }

  // What a worker holds when its iteration is over and it goes to rest.
  function Done(cfg: Settings): Worker {
    if cfg.publishes then Publishing([]) else Handling([], NotRead)
  }

  // The moves take a worker through one iteration, and through one of the state machine if nobody interfered.
  ghost predicate Iterated(cfg: Settings, others: Others, d: TickData, moves: seq<WorkerStep>, now: Tables) {
    && Journey(Idle, moves, Done(cfg), others, 0) && AreWorkerMoves(cfg, moves) && Leaves(moves, now)
    && (Undisturbed(moves) ==> IsTick(cfg, others(0), d, now))
  }

  lemma WholeBatchHandled(cfg: Settings, events: seq<Fetched>, asks: Asks, others: Others,
                          charges: seq<Charge>, moves: seq<WorkerStep>, now: Tables)
    requires Handled(cfg, events, |events|, asks, others, charges, moves, now)
    ensures Journey(Idle, moves, Handling([], NotRead), others, 0)
    ensures Undisturbed(moves) ==> now == HandleAll(cfg, others(0), events, charges)
  {
    assert events[|events|..] == [] && events[..|events|] == events;
  }

  lemma WholeBatchDelivered(cfg: Settings, events: seq<Fetched>, answers: nat -> BusAnswer, others: Others, from: nat,
                            deliveries: seq<Delivery>, moves: seq<WorkerStep>, now: Tables)
    requires Delivered(cfg, events, |events|, answers, others, from, deliveries, moves, now)
    ensures Journey(Handling([], NotRead), moves, Publishing([]), others, from)
    ensures Undisturbed(moves) ==> now == PublishAll(cfg, others(from), events, deliveries)
    ensures moves[0].before == others(from)
  {
    assert events[|events|..] == [] && events[..|events|] == events;
    MovesAreNumbered(Handling([], NotRead), moves, Publishing([]), others, from);
  }

  lemma BothHalves(cfg: Settings, asks: Asks, answers: nat -> BusAnswer, others: Others, from: nat,
                   d: TickData, a: seq<WorkerStep>, between: Tables, b: seq<WorkerStep>, now: Tables)
    requires cfg.publishes && IsBatch(others(0), false, d.now, cfg.batchSize, d.batch) && from == |a|
    requires Handled(cfg, d.batch, |d.batch|, asks, others, d.charges, a, between)
    requires IsBatch(others(from), true, d.fanoutNow, cfg.batchSize, d.fanout)
    requires Delivered(cfg, d.fanout, |d.fanout|, answers, others, from, d.deliveries, b, now)
    ensures Iterated(cfg, others, d, a + b, now) && PublishedIn(a + b, from + 1, d.deliveries)
  {
    WholeBatchHandled(cfg, d.batch, asks, others, d.charges, a, between);
    WholeBatchDelivered(cfg, d.fanout, answers, others, from, d.deliveries, b, now);
    Join(Idle, a, Handling([], NotRead), b, Publishing([]), others, 0, from);
    WorkerMovesTogether(cfg, a, b);
    if Undisturbed(a + b) {
      UndisturbedParts(a, b);
    }
  }

  lemma RequestHalf(cfg: Settings, asks: Asks, others: Others, d: TickData, a: seq<WorkerStep>,
                    now: Tables)
    requires !cfg.publishes && IsBatch(others(0), false, d.now, cfg.batchSize, d.batch)
    requires Handled(cfg, d.batch, |d.batch|, asks, others, d.charges, a, now)
    requires |d.fanout| == |d.deliveries| == 0
    ensures Iterated(cfg, others, d, a, now)
  {
    WholeBatchHandled(cfg, d.batch, asks, others, d.charges, a, now);
  }

  // The attempts of the first half of an iteration were charged for.
  ghost predicate ChargedBy(asks: Asks, moves: seq<WorkerStep>, d: TickData) {
    |moves| >= 1 + 2 * |d.batch| && Charged(asks, Attempts(moves[..1 + 2 * |d.batch|]), d.charges)
  }

  lemma ChargesStand(cfg: Settings, asks: Asks, others: Others, first: seq<WorkerStep>, between: Tables,
                     moves: seq<WorkerStep>, d: TickData)
    requires Handled(cfg, d.batch, |d.batch|, asks, others, d.charges, first, between) && first <= moves
    ensures ChargedBy(asks, moves, d)
  {
    assert moves[..1 + 2 * |d.batch|] == first;
  }

  predicate Wins(t: Tables, f: Fetched, seen: Option<Payment>) {
    seen.Some? && WinsSwap(t, f.row.aggregate, seen.value.version)
  }

  // A call the breaker refuses ends the payment as FAILED at once, and its request with it, however few
  // attempts were made.
  lemma RefusedIsFinal(cfg: Settings, breakers: Breakers, before: Memories, after: Memories, t: Tables, f: Fetched,
                       seen: Option<Payment>, c: Charge, env: Surroundings)
    requires Wins(t, f, seen) && FairCharge(breakers, true, f.row.attempts + 1, before, c, env, after)
    requires !LetsCall(breakers, before, env.provider, env.asked)
    ensures c.calls == 0 && after == before
    ensures var t' := HandleRequest(cfg, t, f, seen, c.result, c.delay, c.at); var id := f.row.aggregate;
      && id in t'.payments && t'.payments[id].status == FAILED && t'.payments[id].lastError == Some(UNEXPECTED)
      && (f.id < |t.events| ==> t'.events[f.id].status == OutboxStatus.Failed)
  {
  }

  lemma AttemptIsMove(cfg: Settings, m: WorkerStep, f: Fetched, seen: Option<Payment>, rest: seq<Fetched>, c: Charge)
    requires m.phase == Handling([f] + rest, Read(seen)) && m.next == Handling(rest, NotRead)
    requires m.act == Attempt(c.result, c.calls, c.delay, c.at)
    requires if Wins(m.before, f, seen) then CallsFit(c.result, c.calls) else c.calls == 0
    requires m.after == HandleRequest(cfg, m.before, f, seen, c.result, c.delay, c.at)
    ensures IsWorkerMove(cfg, m) && Claims(m.before, m.phase) == Wins(m.before, f, seen)
    ensures UsedBy(m.phase) == f.row.attempts + 1
  {
    assert ([f] + rest)[0] == f && ([f] + rest)[1..] == rest;
  }

  // A read and an attempt make a journey.
  lemma ReadAndAttempt(cfg: Settings, read: WorkerStep, attempt: WorkerStep, others: Others, from: nat)
    requires IsWorkerMove(cfg, read) && IsWorkerMove(cfg, attempt) && attempt.phase == read.next
    requires read.before == others(from) && attempt.before == others(from + 1)
    ensures AreWorkerMoves(cfg, [read, attempt])
    ensures Journey(read.phase, [read, attempt], attempt.next, others, from)
  {
    assert [read, attempt] == [read] + [attempt];
    OneMove(read, others, from);
    OneMove(attempt, others, from + 1);
    Join(read.phase, [read], read.next, [attempt], attempt.next, others, from, from + 1);
    OneWorkerMove(cfg, read);
    OneWorkerMove(cfg, attempt);
    WorkerMovesTogether(cfg, [read], [attempt]);
  }

  // The payment, if there is one, ended as FAILED.
  predicate IsFailed(t: Tables, id: PaymentId, before: Tables) {
    id in before.payments ==> id in t.payments && t.payments[id].status == FAILED
  }

  class OutboxWorker {
    const settings: Settings
    const db: Database
    const provider: CallProviderCommand

    constructor (settings: Settings, db: Database, provider: CallProviderCommand)
      ensures this.settings == settings && this.db == db && this.provider == provider
    {
      this.settings, this.db, this.provider := settings, db, provider;
    }

    // The processor's error handling. `version` is that of the payment object, `read` the one it was
    // read with.
    method HandleProcessorError(outbox: OutboxRepository, finalize: FinalizePaymentCommand, f: Fetched,
                                version: nat, message: string, draw: Draw, at: Stamp, ghost read: nat)
      returns (ghost delay: nat)
      requires finalize.outbox == outbox && finalize.payments.session == outbox.session
      requires version == read + if settings.refreshes then 1 else 0
      modifies outbox.session`working
      ensures delay == RetryDelay(f.row.attempts + 1, draw)
      ensures outbox.session.working ==
        Settle(settings, old(outbox.session.working), f, read, ProcessorFailure(message), delay, at)
    {
      var attempts := f.row.attempts + 1;
      delay := RetryDelay(attempts, draw);
      if attempts >= settings.maxAttempts {
        finalize.Fail(settings, f.row.aggregate, version, message, at, read);
        outbox.MarkFailed(f.id, attempts);
        return;
      }
      outbox.Reschedule(f.id, attempts, at.now, RetryDelay(attempts, draw));
    }

    method ProcessPaymentEvent(outbox: OutboxRepository, finalize: FinalizePaymentCommand, f: Fetched,
                               version: nat, env: Surroundings, ghost read: nat)
      returns (c: Charge)
      requires finalize.outbox == outbox && finalize.payments.session == outbox.session
      requires version == read + if settings.refreshes then 1 else 0
      requires !outbox.session.broken
      modifies outbox.session`working, outbox.session.db, provider.breakers.Values
      ensures CallsFit(c.result, c.calls)
      ensures FairCharge(provider.breakers, true, f.row.attempts + 1, old(provider.Remembered()), c, env,
                         provider.Remembered())
      ensures !LetsCall(provider.breakers, old(provider.Remembered()), env.provider, env.asked) ==>
        c.calls == 0 && IsFailed(outbox.session.working, f.row.aggregate, old(outbox.session.working))
      ensures outbox.session.working ==
        Settle(settings, old(outbox.session.working), f, read, c.result, c.delay, c.at)
      ensures outbox.session.db.tables == outbox.session.working
    {
      c := AskProvider(f, env);
      SettleAndCommit(outbox, finalize, f, version, c.result, env, read);
    }

    method AskProvider(f: Fetched, env: Surroundings) returns (c: Charge)
      modifies provider.breakers.Values
      ensures CallsFit(c.result, c.calls) && c.delay == RetryDelay(f.row.attempts + 1, env.draw)
      ensures FairCharge(provider.breakers, true, f.row.attempts + 1, old(provider.Remembered()), c, env,
                         provider.Remembered())
    {
      var result, calls := provider.Execute(env.provider, env.call, env.asked, env.ended);
      c := Charge(result, calls, RetryDelay(f.row.attempts + 1, env.draw), env.at);
    }

    method SettleAndCommit(outbox: OutboxRepository, finalize: FinalizePaymentCommand, f: Fetched, version: nat,
                           result: CallResult, env: Surroundings, ghost read: nat)
      requires finalize.outbox == outbox && finalize.payments.session == outbox.session
      requires version == read + if settings.refreshes then 1 else 0
      requires !outbox.session.broken
      modifies outbox.session`working, outbox.session.db
      ensures outbox.session.working ==
        Settle(settings, old(outbox.session.working), f, read, result, RetryDelay(f.row.attempts + 1, env.draw), env.at)
      ensures outbox.session.db.tables == outbox.session.working
      ensures result == OtherFailure ==> IsFailed(outbox.session.working, f.row.aggregate, old(outbox.session.working))
      ensures f.row.aggregate in old(outbox.session.working).payments ==>
        var before, after := old(outbox.session.working).payments[f.row.aggregate],
                             outbox.session.working.payments[f.row.aggregate];
        match result
        case Answered(true, false) => after.status == CONFIRMED && after.lastError == None
        case Answered(_, _) => after.status == FAILED && after.lastError == Some("Partial failure")
        case ProcessorFailure(message) =>
          if f.row.attempts + 1 >= settings.maxAttempts
          then after.status == FAILED && after.lastError == Some(message) else after == before
        case OtherFailure => after.status == FAILED && after.lastError == Some("Unexpected processor failure")
    {
      match result {
        case Answered(confirmed, partialFailure) =>
          if confirmed && !partialFailure {
            finalize.Confirm(settings, f.row.aggregate, version, env.at, read);
          } else {
            finalize.Fail(settings, f.row.aggregate, version, PARTIAL, env.at, read);
          }
          outbox.MarkSent(f.id);
        case ProcessorFailure(message) =>
          var _ := HandleProcessorError(outbox, finalize, f, version, message, env.draw, env.at, read);
        case OtherFailure =>
          finalize.Fail(settings, f.row.aggregate, version, UNEXPECTED, env.at, read);
          outbox.MarkFailed(f.id, f.row.attempts + 1);
      }
      var _ := outbox.session.Commit(false);
    }

    // The request of a payment that is missing, or that somebody else has claimed, is closed.
    method CloseUnclaimed(outbox: OutboxRepository, f: Fetched, seen: Option<Payment>, ghost at: Stamp)
      requires outbox.session.Fresh() && !Wins(outbox.session.db.tables, f, seen)
      modifies outbox.session`working, outbox.session.db
      ensures outbox.session.Fresh()
      ensures outbox.session.db.tables ==
        HandleRequest(settings, old(outbox.session.db.tables), f, seen, OtherFailure, 0, at)
    {
      if seen.None? {
        outbox.MarkFailed(f.id, f.row.attempts + 1);
      } else {
        outbox.MarkSent(f.id);
      }
      var _ := outbox.session.Commit(false);
    }

    method Claim(payments: PaymentRepository, f: Fetched, seen: Option<Payment>) returns (won: bool)
      requires payments.session.Fresh()
      modifies payments.session`working
      ensures won == Wins(payments.session.db.tables, f, seen)
      ensures payments.session.working ==
        if won then SwapToProcessing(payments.session.db.tables, f.row.aggregate, seen.value.version)
        else payments.session.db.tables
    {
      if seen.None? {
        return false;
      }
      var claim := new MarkProcessingCommand(payments);
      won := claim.Execute(f.row.aggregate, seen.value.version);
    }

    method ProcessClaimed(payments: PaymentRepository, outbox: OutboxRepository, f: Fetched, read: nat,
                          env: Surroundings)
      returns (c: Charge)
      requires payments.session == outbox.session && !outbox.session.broken
      modifies outbox.session`working, outbox.session.db, provider.breakers.Values
      ensures CallsFit(c.result, c.calls)
      ensures FairCharge(provider.breakers, true, f.row.attempts + 1, old(provider.Remembered()), c, env,
                         provider.Remembered())
      ensures outbox.session.working ==
        Settle(settings, old(outbox.session.working), f, read, c.result, c.delay, c.at)
      ensures outbox.session.db.tables == outbox.session.working
    {
      var finalize := new FinalizePaymentCommand(payments, outbox);
      var version := if settings.refreshes then read + 1 else read;
      c := ProcessPaymentEvent(outbox, finalize, f, version, env, read);
    }

    // From the compare-and-set to the commit. The payment was read before, and may have changed since.
    method ClaimAndProcess(session: Session, f: Fetched, seen: Option<Payment>, env: Surroundings)
      returns (ghost c: Charge)
      requires session.Fresh()
      modifies session`working, session.db, provider.breakers.Values
      ensures session.Fresh()
      ensures var won := Wins(old(session.db.tables), f, seen);
        && (won ==> CallsFit(c.result, c.calls))
        && FairCharge(provider.breakers, won, f.row.attempts + 1, old(provider.Remembered()), c, env,
                      provider.Remembered())
      ensures session.db.tables ==
        HandleRequest(settings, old(session.db.tables), f, seen, c.result, c.delay, c.at)
    {
      var payments := new PaymentRepository(session);
      var outbox := new OutboxRepository(session);
      var won := Claim(payments, f, seen);
      if !won {
        CloseUnclaimed(outbox, f, seen, env.at);
        c := Charge(OtherFailure, 0, 0, env.at);
        return;
      }
      c := ProcessClaimed(payments, outbox, f, seen.value.version, env);
    }

    // The two transactions, on the rows as the others left them before either.
    method ReadAndClaim(session: Session, f: Fetched, env: Surroundings, first: Tables, second: Tables)
      returns (ghost c: Charge, ghost seen: Option<Payment>)
      requires session.db == db
      modifies session, db, provider.breakers.Values
      ensures session.Fresh() && seen == Lookup(first, f.row.aggregate)
      ensures if Wins(second, f, seen) then CallsFit(c.result, c.calls) else c.calls == 0
      ensures FairCharge(provider.breakers, Wins(second, f, seen), f.row.attempts + 1, old(provider.Remembered()), c,
                         env, provider.Remembered())
      ensures db.tables == HandleRequest(settings, second, f, seen, c.result, c.delay, c.at)
    {
      session.Await(first);
      var payments := new PaymentRepository(session);
      var payment := payments.GetById(f.row.aggregate);
      session.Await(second);
      c := ClaimAndProcess(session, f, payment, env);
      seen := payment;
    }

    // One fetched event: the payment is read, and then claimed and settled, while others may commit before
    // either. `todo` is what is left of the batch.
    method ProcessEvent(session: Session, f: Fetched, env: Surroundings, others: Others, from: nat,
                        ghost todo: seq<Fetched>, ghost rest: seq<Fetched>)
      returns (ghost c: Charge, ghost moves: seq<WorkerStep>)
      requires session.db == db && todo == [f] + rest
      modifies session, db, provider.breakers.Values
      ensures session.Fresh() && Leaves(moves, db.tables) && |moves| == 2 && moves[0].after == moves[0].before
      ensures AreWorkerMoves(settings, moves)
      ensures Journey(Handling(todo, NotRead), moves, Handling(rest, NotRead), others, from)
      ensures ChargedMove(provider.breakers, moves[1], old(provider.Remembered()), c, env, provider.Remembered())
      ensures others(from + 1) == others(from) ==> db.tables == HandleOne(settings, others(from), f, c)
    {
      ghost var payment;
      c, payment := ReadAndClaim(session, f, env, others(from), others(from + 1));
      ghost var read := Move(others(from), Handling(todo, NotRead), ReadPayment, others(from),
                           Handling(todo, Read(payment)));
      ghost var act := Attempt(c.result, c.calls, c.delay, c.at);
      ghost var attempt := Move(others(from + 1), read.next, act, db.tables, Handling(rest, NotRead));
      AttemptIsMove(settings, attempt, f, payment, rest, c);
      moves := [read, attempt];
      ReadAndAttempt(settings, read, attempt, others, from);
    }

    method HandleFanoutFailure(outbox: OutboxRepository, f: Fetched, draw: Draw, at: Stamp) returns (ghost delay: nat)
      modifies outbox.session`working
      ensures delay == RetryDelay(f.row.attempts + 1, draw)
      ensures outbox.session.working == HandleFanout(settings, old(outbox.session.working), f, false, delay, at)
      ensures var before, after := old(outbox.session.working).events, outbox.session.working.events;
        f.id < |before| ==>
          after == before[f.id := if f.row.attempts + 1 >= settings.maxAttempts
                                  then before[f.id].(status := OutboxStatus.Failed, attempts := f.row.attempts + 1)
                                  else before[f.id].(attempts := f.row.attempts + 1, nextAttemptAt := at.now + delay)]
    {
      var attempts := f.row.attempts + 1;
      delay := RetryDelay(attempts, draw);
      if attempts >= settings.maxAttempts {
        outbox.MarkFailed(f.id, attempts);
        return;
      }
      outbox.Reschedule(f.id, attempts, at.now, RetryDelay(attempts, draw));
    }

    method PublishFanoutEvent(session: Session, f: Fetched, answer: BusAnswer, tables: Tables,
                              ghost todo: seq<Fetched>, ghost rest: seq<Fetched>)
      returns (ghost d: Delivery, ghost m: WorkerStep)
      requires session.db == db && todo == [f] + rest
      modifies session, db
      ensures session.Fresh() && IsWorkerMove(settings, m)
      ensures m.before == tables && m.phase == Publishing(todo) && m.next == Publishing(rest) && m.after == db.tables
      ensures FairDelivery(f, d, answer) && m.act == Publish(d.published, d.delay, d.at)
      ensures f.id < |tables.events| ==>
        (&& f.id < |db.tables.events|
         && var attempts, was, now := f.row.attempts + 1, tables.events[f.id], db.tables.events[f.id];
            if answer.published then now == was.(status := Sent)
            else if attempts >= settings.maxAttempts
            then now == was.(status := OutboxStatus.Failed, attempts := attempts)
            else now == was.(attempts := attempts, nextAttemptAt := answer.at.now + RetryDelay(attempts, answer.draw)))
      ensures db.tables == PublishOne(settings, tables, f, d)
    {
      session.Await(tables);
      var outbox := new OutboxRepository(session);
      d := Delivery(answer.published, 0, answer.at);
      if answer.published {
        outbox.MarkSent(f.id);
      } else {
        ghost var delay := HandleFanoutFailure(outbox, f, answer.draw, answer.at);
        d := Delivery(false, delay, answer.at);
      }
      var _ := session.Commit(false);
      assert todo[0] == f && todo[1..] == rest;
      m := Move(tables, Publishing(todo), Publish(d.published, d.delay, d.at), db.tables, Publishing(rest));
    }

    // The next event of a batch.
    method ProcessNext(session: Session, events: seq<Fetched>, i: nat, env: Surroundings, others: Others,
                       ghost asks: Asks, ghost charges: seq<Charge>, ghost moves: seq<WorkerStep>)
      returns (ghost asks': Asks, ghost charges': seq<Charge>, ghost moves': seq<WorkerStep>)
      requires session.db == db && session.Fresh() && i < |events| && env == asks.env(i)
      requires Handled(settings, events, i, asks, others, charges, moves, db.tables)
      requires asks.breakers == provider.breakers && asks.memories[i] == provider.Remembered()
      modifies session, db, provider.breakers.Values
      ensures session.Fresh()
      ensures Handled(settings, events, i + 1, asks', others, charges', moves', db.tables)
      ensures asks' == And(asks, provider.Remembered())
    {
      ghost var before := db.tables;
      ghost var c, more;
      Head(events, i);
      c, more := ProcessEvent(session, events[i], env, others, 1 + 2 * i, events[i..], events[i + 1..]);
      OneMoreHandled(settings, events, i, asks, others, 1 + 2 * i, charges, moves, before, c, more, db.tables,
                     provider.Remembered());
      asks', charges', moves' := And(asks, provider.Remembered()), charges + [c], moves + more;
    }

    // The events of a batch one after the other.
    method ProcessEvents(session: Session, events: seq<Fetched>, surroundings: nat -> Surroundings, others: Others,
                         ghost first: Asks, ghost fetch: WorkerStep)
      returns (ghost asks: Asks, ghost charges: seq<Charge>, ghost moves: seq<WorkerStep>)
      requires session.db == db && session.Fresh()
      requires first == Asks(provider.breakers, [provider.Remembered()], surroundings)
      requires Handled(settings, events, 0, first, others, [], [fetch], db.tables)
      modifies session, db, provider.breakers.Values
      ensures session.Fresh()
      ensures Handled(settings, events, |events|, asks, others, charges, moves, db.tables)
      ensures asks.breakers == provider.breakers && asks.env == surroundings
      ensures asks.memories[0] == old(provider.Remembered()) && asks.memories[|events|] == provider.Remembered()
    {
      asks, charges, moves := first, [], [fetch];
      for i := 0 to |events|
        invariant session.Fresh() && Handled(settings, events, i, asks, others, charges, moves, db.tables)
        invariant asks.breakers == provider.breakers && asks.env == surroundings && |asks.memories| == i + 1
        invariant asks.memories[0] == first.memories[0] && asks.memories[i] == provider.Remembered()
      {
        asks, charges, moves := ProcessNext(session, events, i, surroundings(i), others, asks, charges, moves);
      }
    }

    method PublishNext(session: Session, events: seq<Fetched>, i: nat, answers: nat -> BusAnswer, others: Others,
                       from: nat, ghost deliveries: seq<Delivery>, ghost moves: seq<WorkerStep>)
      returns (ghost deliveries': seq<Delivery>, ghost moves': seq<WorkerStep>)
      requires session.db == db && session.Fresh() && i < |events|
      requires Delivered(settings, events, i, answers, others, from, deliveries, moves, db.tables)
      modifies session, db
      ensures session.Fresh()
      ensures Delivered(settings, events, i + 1, answers, others, from, deliveries', moves', db.tables)
    {
      ghost var d, m, before := *, *, db.tables;
      Head(events, i);
      d, m := PublishFanoutEvent(session, events[i], answers(i), others(from + 1 + i), events[i..], events[i + 1..]);
      OneMoreDelivered(settings, events, i, answers, others, from, from + 1 + i, deliveries, moves, before,
                       d, m, db.tables);
      deliveries', moves' := deliveries + [d], moves + [m];
    }

    // The fan-out half of an iteration: a batch of outcome events.
    method PublishFanoutEvents(session: Session, now: Time, answers: nat -> BusAnswer, others: Others, from: nat)
      returns (ghost batch: seq<Fetched>, ghost deliveries: seq<Delivery>, ghost moves: seq<WorkerStep>)
      requires session.db == db && settings.publishes
      modifies session, db
      ensures session.Fresh() && IsBatch(others(from), true, now, settings.batchSize, batch)
      ensures Delivered(settings, batch, |batch|, answers, others, from, deliveries, moves, db.tables)
    {
      session.Await(others(from));
      var outbox := new OutboxRepository(session);
      var events := outbox.FetchPendingFanoutEvents(now, settings.batchSize);
      batch, deliveries := events, [];
      moves := FanoutFetched(settings, others, from, now, events, answers);
      for i := 0 to |events|
        invariant session.Fresh()
        invariant Delivered(settings, events, i, answers, others, from, deliveries, moves, db.tables)
      {
        deliveries, moves := PublishNext(session, events, i, answers, others, from, deliveries, moves);
      }
    }

    // The fan-out half, if a publisher is configured, completes the iteration.
    method PublishIfEnabled(session: Session, count: nat, fanoutNow: Time, answers: nat -> BusAnswer, others: Others,
                            ghost asks: Asks, ghost d0: TickData, ghost first: seq<WorkerStep>)
      returns (ghost d: TickData, ghost moves: seq<WorkerStep>)
      requires session.db == db && count == |d0.batch| && d0.fanoutNow == fanoutNow
      requires |d0.fanout| == |d0.deliveries| == 0
      requires IsBatch(others(0), false, d0.now, settings.batchSize, d0.batch)
      requires Handled(settings, d0.batch, |d0.batch|, asks, others, d0.charges, first, db.tables)
      modifies session, db
      ensures Iterated(settings, others, d, moves, db.tables) && BusAnswered(d.fanout, d.deliveries, answers)
      ensures d == d0.(fanout := d.fanout, deliveries := d.deliveries) && first <= moves
      ensures PublishedIn(moves, 2 + 2 * count, d.deliveries)
    {
      d, moves := d0, first;
      if !settings.publishes {
        RequestHalf(settings, asks, others, d0, first, db.tables);
        return;
      }
      ghost var between, batch, deliveries, more := db.tables, [], [], [];
      batch, deliveries, more := PublishFanoutEvents(session, fanoutNow, answers, others, 1 + 2 * count);
      d := d0.(fanout := batch, deliveries := deliveries);
      BothHalves(settings, asks, answers, others, 1 + 2 * count, d, first, between, more, db.tables);
      moves := first + more;
    }

    // One iteration, with anybody else at the database between any two of its transactions. It takes
    // enabled steps of the state machine from being idle until nothing is left of its batches, and every
    // attempt that wins asks the provider through the breaker, as the attempt before left it, and the retry
    // loop. If nobody interferes, it is an iteration as a whole.
    method RunOnce(now: Time, surroundings: nat -> Surroundings, fanoutNow: Time, answers: nat -> BusAnswer,
                   others: Others)
      returns (ghost d: TickData, ghost moves: seq<WorkerStep>, ghost asks: Asks)
      modifies db, provider.breakers.Values
      ensures Iterated(settings, others, d, moves, db.tables)
      ensures d.now == now && d.fanoutNow == fanoutNow && BusAnswered(d.fanout, d.deliveries, answers)
      ensures ChargedBy(asks, moves, d) && PublishedIn(moves, 2 + 2 * |d.batch|, d.deliveries)
      ensures asks.breakers == provider.breakers && asks.env == surroundings
      ensures asks.memories[0] == old(provider.Remembered()) && asks.memories[|d.charges|] == provider.Remembered()
    {
      var session := new Session(db);
      ghost var before;
      var count;
      count, d, asks, before := HandleRequests(session, now, surroundings, fanoutNow, others);
      ghost var first, between := d, db.tables;
      d, moves := PublishIfEnabled(session, count, fanoutNow, answers, others, asks, first, before);
      ChargesStand(settings, asks, others, before, between, moves, d);
    }

    // The first half of an iteration: a batch of requests.
    method HandleRequests(session: Session, now: Time, surroundings: nat -> Surroundings, fanoutNow: Time,
                          others: Others)
      returns (count: nat, ghost d: TickData, ghost asks: Asks, ghost moves: seq<WorkerStep>)
      requires session.db == db
      modifies session, db, provider.breakers.Values
      ensures session.Fresh() && count == |d.batch| && |d.fanout| == |d.deliveries| == 0
      ensures d.now == now && d.fanoutNow == fanoutNow
      ensures IsBatch(others(0), false, d.now, settings.batchSize, d.batch)
      ensures Handled(settings, d.batch, |d.batch|, asks, others, d.charges, moves, db.tables)
      ensures asks.breakers == provider.breakers && asks.env == surroundings
      ensures asks.memories[0] == old(provider.Remembered()) && asks.memories[|d.charges|] == provider.Remembered()
    {
      session.Await(others(0));
      var outbox := new OutboxRepository(session);
      var events := outbox.FetchPendingRequested(now, settings.batchSize);
      ghost var first := Asks(provider.breakers, [provider.Remembered()], surroundings);
      ghost var fetch := RequestsFetched(settings, others, now, events, first);
      ghost var charges;
      asks, charges, moves := ProcessEvents(session, events, surroundings, others, first, fetch);
      count, d := |events|, TickData(now, events, charges, fanoutNow, [], []);
    }
  }
}
