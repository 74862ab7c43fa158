/** What the state of an outcome or review event says about its publications, over every run with one worker. */
module Publications {
  import opened Contracts
  import opened Store
  import opened Ledger
  import opened Protocol
  import opened SingleWorker

  // One try to publish an event: what the bus did, when, and how long the next try was put off.
  datatype Try = Try(published: bool, now: Time, delay: nat)

  // The step tries to publish event `i`.
  predicate Tries(s: State, step: Step, i: nat) {
    && step.Work? && step.work.Publish?
    && WorkerOf(s, step.w).Publishing? && WorkerOf(s, step.w).todo != [] && WorkerOf(s, step.w).todo[0].id == i
  }

  // All tries of event `i` in the first `k` steps, oldest first.
  function TriesOf(states: seq<State>, steps: seq<Step>, k: nat, i: nat): seq<Try>
    requires k <= |steps| < |states|
  {
    if k == 0 then []
    else if Tries(states[k - 1], steps[k - 1], i)
    then var act := steps[k - 1].work;
         TriesOf(states, steps, k - 1, i) + [Try(act.published, act.at.now, act.delay)]
    else TriesOf(states, steps, k - 1, i)
  }

  // The clock of the transaction a step commits.
  function ClockOf(step: Step): Time {
    match step
    case Request(_, Commit(_, at)) => at.now
    case Review(_, _, at) => at.now
    case Work(_, Attempt(_, _, _, at)) => at.now
    case _ => 0
  }

  // That of the step that added event `i`.
  function AddedAt(states: seq<State>, steps: seq<Step>, k: nat, i: nat): Time
    requires k <= |steps| < |states|
  {
    if k == 0 then 0
    else if i < |states[k - 1].db.events| then AddedAt(states, steps, k - 1, i)
    else ClockOf(steps[k - 1])
  }

  // What the tries of an event make of it.
  predicate Told(cfg: Settings, e: Event, tries: seq<Try>, addedAt: Time) {
    var n := |tries|;
    && (forall j | 0 <= j < n - 1 :: !tries[j].published)
    && n <= cfg.maxAttempts
    && if n > 0 && tries[n - 1].published then e.status == Sent && e.attempts == n - 1
       else if n == cfg.maxAttempts then e.status == OutboxStatus.Failed && e.attempts == n
       else
         && e.status == Pending && e.attempts == n
         && e.nextAttemptAt == if n == 0 then addedAt else tries[n - 1].now + tries[n - 1].delay
  }

  ghost predicate AllTold(cfg: Settings, states: seq<State>, steps: seq<Step>, k: nat)
    requires k <= |steps| < |states|
  {
    && (forall i: nat | i < |states[k].db.events| && IsFanout(states[k].db.events[i].kind) ::
          Told(cfg, states[k].db.events[i], TriesOf(states, steps, k, i), AddedAt(states, steps, k, i)))
    && (forall i: nat | i >= |states[k].db.events| :: TriesOf(states, steps, k, i) == [])
  }

  // ----- What one step does to the events that are published -----

  // They stay as they are, unless the step publishes them, and new ones wait from the clock of the step on.
  ghost predicate FanoutKept(s: State, step: Step, s': State) {
    && |s.db.events| <= |s'.db.events|
    && (forall i: nat | i < |s.db.events| ::
          s'.db.events[i].kind == s.db.events[i].kind
          && (IsFanout(s.db.events[i].kind) && !Tries(s, step, i) ==> s'.db.events[i] == s.db.events[i]))
    && (forall i: nat | |s.db.events| <= i < |s'.db.events| ::
          s'.db.events[i].status == Pending && s'.db.events[i].attempts == 0
          && s'.db.events[i].nextAttemptAt == ClockOf(step))
  }

  // The events after a step that rewrites row `i` and adds new rows with the clock `now`.
  predicate Rewrites(es: seq<Event>, es': seq<Event>, i: nat, now: Time) {
    && i < |es| <= |es'| && es'[i].kind == es[i].kind
    && (forall j: nat | j < |es| && j != i :: es'[j] == es[j])
    && (forall j: nat | |es| <= j < |es'| ::
          es'[j].status == Pending && es'[j].attempts == 0 && es'[j].nextAttemptAt == now)
  }

  lemma RequestRewrites(cfg: Settings, t: Tables, f: Fetched, seen: Option<Payment>, r: CallResult, delay: nat,
                        at: Stamp)
    requires f.id < |t.events|
    ensures Rewrites(t.events, HandleRequest(cfg, t, f, seen, r, delay, at).events, f.id, at.now)
  {
  }

  lemma RewriteKeepsFanout(s: State, step: Step, s': State, i: nat)
    requires Rewrites(s.db.events, s'.db.events, i, ClockOf(step))
    requires IsFanout(s.db.events[i].kind) ==> Tries(s, step, i)
    ensures FanoutKept(s, step, s')
  {
  }

  lemma AttemptTables(cfg: Settings, s: State, act: WorkerAction)
    requires WorkerEnabled(cfg, s, 0, act) && act.Attempt?
    ensures var k := WorkerOf(s, 0);
      ApplyWorker(cfg, s, 0, act).db == HandleRequest(cfg, s.db, k.todo[0], k.seen.row, act.result, act.delay, act.at)
  {
  }

  lemma AttemptKeepsFanout(cfg: Settings, s: State, act: WorkerAction)
    requires Inv(cfg, s) && WorkerEnabled(cfg, s, 0, act) && act.Attempt?
    ensures FanoutKept(s, Work(0, act), ApplyWorker(cfg, s, 0, act))
  {
    var k := WorkerOf(s, 0);
    assert Current(s.db, k.todo[0], false);
    RequestRewrites(cfg, s.db, k.todo[0], k.seen.row, act.result, act.delay, act.at);
    AttemptTables(cfg, s, act);
    RewriteKeepsFanout(s, Work(0, act), ApplyWorker(cfg, s, 0, act), k.todo[0].id);
  }

  lemma ApiKeepsFanout(cfg: Settings, s: State, step: Step)
    requires Enabled(cfg, s, step) && !step.Work?
    ensures FanoutKept(s, step, Apply(cfg, s, step))
  {
    if step.Request? && step.request.Commit? {
      var d := s.requests[step.r].draft;
      if !Violates(s.db, d, step.request.otherViolation) {
        assert Create(s.db, d, step.request.at).events == s.db.events + OutboxFor(d, step.request.at);
      }
    }
  }

  lemma PublishRewrites(cfg: Settings, t: Tables, f: Fetched, published: bool, delay: nat, at: Stamp, clock: Time)
    requires f.id < |t.events|
    ensures Rewrites(t.events, HandleFanout(cfg, t, f, published, delay, at).events, f.id, clock)
  {
  }

  lemma PublishKeepsFanout(cfg: Settings, s: State, act: WorkerAction)
    requires Inv(cfg, s) && WorkerEnabled(cfg, s, 0, act) && act.Publish?
    ensures FanoutKept(s, Work(0, act), ApplyWorker(cfg, s, 0, act))
  {
    var f := WorkerOf(s, 0).todo[0];
    assert Current(s.db, f, true);
    PublishRewrites(cfg, s.db, f, act.published, act.delay, act.at, ClockOf(Work(0, act)));
    RewriteKeepsFanout(s, Work(0, act), ApplyWorker(cfg, s, 0, act), f.id);
  }

  lemma StepKeepsFanout(cfg: Settings, s: State, step: Step)
    requires Inv(cfg, s) && Enabled(cfg, s, step) && Solo(step)
    ensures FanoutKept(s, step, Apply(cfg, s, step))
  {
    if step.Work? {
      if step.work.Attempt? {
        AttemptKeepsFanout(cfg, s, step.work);
      } else if step.work.Publish? {
        PublishKeepsFanout(cfg, s, step.work);
      }
    } else {
      ApiKeepsFanout(cfg, s, step);
    }
  }

  // A try finds the event pending as it was fetched.
  lemma TryTells(cfg: Settings, s: State, act: WorkerAction, i: nat, tries: seq<Try>, addedAt: Time)
    requires Inv(cfg, s) && WorkerEnabled(cfg, s, 0, act) && Tries(s, Work(0, act), i)
    requires i < |s.db.events| ==> Told(cfg, s.db.events[i], tries, addedAt)
    ensures i < |s.db.events| == |ApplyWorker(cfg, s, 0, act).db.events|
    ensures Told(cfg, ApplyWorker(cfg, s, 0, act).db.events[i],
                 tries + [Try(act.published, act.at.now, act.delay)], addedAt)
  {
    assert Current(s.db, WorkerOf(s, 0).todo[0], true);
    var all := tries + [Try(act.published, act.at.now, act.delay)];
    assert forall j | 0 <= j < |tries| :: all[j] == tries[j];
  }

  // ----- Whole runs -----

  lemma StepTells(cfg: Settings, states: seq<State>, steps: seq<Step>, k: nat, i: nat)
    requires IsSoloRun(cfg, states, steps) && states[0] == START && 0 < k <= |steps|
    requires AllTold(cfg, states, steps, k - 1)
    ensures i < |states[k].db.events| && IsFanout(states[k].db.events[i].kind) ==>
      Told(cfg, states[k].db.events[i], TriesOf(states, steps, k, i), AddedAt(states, steps, k, i))
    ensures i >= |states[k].db.events| ==> TriesOf(states, steps, k, i) == []
  {
    var s, step := states[k - 1], steps[k - 1];
    LedgerInvariant(cfg, states, steps, k - 1);
    StepKeepsFanout(cfg, s, step);
    if Tries(s, step, i) {
      assert Current(s.db, WorkerOf(s, 0).todo[0], true);
      TryTells(cfg, s, step.work, i, TriesOf(states, steps, k - 1, i), AddedAt(states, steps, k - 1, i));
    }
  }

  lemma {:induction false} RunTells(cfg: Settings, states: seq<State>, steps: seq<Step>, k: nat)
    requires IsSoloRun(cfg, states, steps) && states[0] == START && k <= |steps|
    ensures AllTold(cfg, states, steps, k)
  {
    if k > 0 {
      RunTells(cfg, states, steps, k - 1);
      forall i: nat
        ensures i < |states[k].db.events| && IsFanout(states[k].db.events[i].kind) ==>
          Told(cfg, states[k].db.events[i], TriesOf(states, steps, k, i), AddedAt(states, steps, k, i))
        ensures i >= |states[k].db.events| ==> TriesOf(states, steps, k, i) == []
      {
        StepTells(cfg, states, steps, k, i);
      }
    }
  }

  predicate Published(tries: seq<Try>) {
    exists j :: 0 <= j < |tries| && tries[j].published
  }

  // The last try decides, because none before it was taken.
  lemma LastTryDecides(tries: seq<Try>)
    requires forall j | 0 <= j < |tries| - 1 :: !tries[j].published
    ensures Published(tries) <==> |tries| > 0 && tries[|tries| - 1].published
  {
  }

  // In every run with one worker an outcome or review event is SENT if and only if the bus took it, FAILED if
  // and only if it was tried as often as allowed and never taken, and pending otherwise, with its failed tries
  // as attempts and due when the last of them put it off to. It is never published twice.
  lemma SentExactlyWhen(cfg: Settings, states: seq<State>, steps: seq<Step>, k: nat, i: nat, tries: seq<Try>)
    requires IsSoloRun(cfg, states, steps) && states[0] == START && k <= |steps|
    requires i < |states[k].db.events| && IsFanout(states[k].db.events[i].kind)
    requires tries == TriesOf(states, steps, k, i)
    ensures var e := states[k].db.events[i];
      && (e.status == Sent <==> Published(tries))
      && (e.status == OutboxStatus.Failed <==> |tries| == cfg.maxAttempts && !Published(tries))
      && (e.status == Pending <==> |tries| < cfg.maxAttempts && !Published(tries))
      && (e.status != Sent ==> e.attempts == |tries|)
      && (e.status == Pending ==>
            e.nextAttemptAt == if tries == [] then AddedAt(states, steps, k, i)
                               else tries[|tries| - 1].now + tries[|tries| - 1].delay)
      && (forall j | 0 <= j < |tries| - 1 :: !tries[j].published)
  {
    RunTells(cfg, states, steps, k);
    ToldMeans(cfg, states[k].db.events[i], tries, AddedAt(states, steps, k, i));
  }

  lemma ToldMeans(cfg: Settings, e: Event, tries: seq<Try>, addedAt: Time)
    requires Told(cfg, e, tries, addedAt)
    ensures e.status == Sent <==> Published(tries)
    ensures e.status == OutboxStatus.Failed <==> |tries| == cfg.maxAttempts && !Published(tries)
    ensures e.status == Pending <==> |tries| < cfg.maxAttempts && !Published(tries)
    ensures e.status != Sent ==> e.attempts == |tries|
    ensures e.status == Pending ==>
      e.nextAttemptAt == if tries == [] then addedAt else tries[|tries| - 1].now + tries[|tries| - 1].delay
    ensures forall j | 0 <= j < |tries| - 1 :: !tries[j].published
  {
    LastTryDecides(tries);
  }
}
