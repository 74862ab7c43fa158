/** The whole system as a state machine: any number of create requests and reviews, and any number of
    workers, each with its own batch of rows fetched earlier. A step is what happens between two points
    at which another actor can interfere; everything the environment decides is part of the step. */
module Protocol {
  import opened Contracts
  import opened Store

  const POLL_ROUNDS := 5
  const CALLS_PER_ATTEMPT := 3

  // ----- A create request -----

  datatype Source = Created | FromSnapshot | FromPayment

  datatype Refusal = ControlsDenied | WaitedTooLong | Conflict(scopeWasTaken: bool)

  datatype Request =
    | Looking(scope: Scope)
    | Locking(scope: Scope)
    | Polling(scope: Scope, round: nat, missed: bool)
    | Deciding(scope: Scope)
    | Committing(scope: Scope, draft: Draft)
    | Resolving(scope: Scope, scopeWasTaken: bool, missed: bool)
    | Replied(scope: Scope, reply: Response, source: Source)
    | Refused(scope: Scope, why: Refusal)

  // ----- A worker -----

  datatype Seen = NotRead | Read(row: Option<Payment>)

  datatype Worker =
    | Idle
    | Handling(todo: seq<Fetched>, seen: Seen)
    | Publishing(todo: seq<Fetched>)

  // ----- The system -----

  datatype Win = Win(payment: PaymentId, version: nat, final: bool)

  // What happened so far; no actor reads it.
  datatype History = History(
    born: map<PaymentId, PaymentStatus>,   // the status each payment was created with
    approved: set<PaymentId>,
    calls: multiset<PaymentId>,            // one element for each provider call
    lost: multiset<PaymentId>,             // one element for each attempt that called and then crashed
    wins: seq<Win>)                        // the committed compare-and-set wins, oldest first

  datatype State = State(
    db: Tables,
    requests: map<nat, Request>,
    workers: map<nat, Worker>,
    history: History)

  const START := State(EMPTY, map[], map[], History(map[], {}, multiset{}, multiset{}, []))

  datatype RequestAction =
    | Arrive(scope: Scope)
    | LookSnapshot
    | TakeLock(acquired: bool)
    | PollSnapshot
    | PollPayment(found: Option<PaymentId>)
    | Decide(verdict: Option<Draft>)
    | Commit(otherViolation: bool, at: Stamp)
    | ResolveSnapshot
    | ResolvePayment(found: Option<PaymentId>)
    | Vanish

  datatype WorkerAction =
    | FetchRequests(now: Time, batch: seq<Fetched>)
    | ReadPayment
    | Attempt(result: CallResult, calls: nat, delay: nat, at: Stamp)
    | FetchFanout(now: Time, batch: seq<Fetched>)
    | Publish(published: bool, delay: nat, at: Stamp)
    | Rest
    | Crash(calls: nat)

  datatype Step =
    | Request(r: nat, request: RequestAction)
    | Review(id: PaymentId, approve: bool, at: Stamp)
    | Work(w: nat, work: WorkerAction)

  function WorkerOf(s: State, w: nat): Worker {
    if w in s.workers then s.workers[w] else Idle
  }

  // The worker is about to run, or is running, an attempt whose compare-and-set succeeds on these tables.
  predicate Claims(t: Tables, k: Worker) {
    && k.Handling? && k.todo != [] && k.seen.Read? && k.seen.row.Some?
    && WinsSwap(t, k.todo[0].row.aggregate, k.seen.row.value.version)
  }

  predicate Winning(s: State, w: nat) {
    Claims(s.db, WorkerOf(s, w))
  }

  // How many provider calls an attempt with this result can have made.
  predicate CallsFit(result: CallResult, calls: nat) {
    calls <= CALLS_PER_ATTEMPT && (result.OtherFailure? || calls >= 1)
  }

  // The answer of a query by scope: the payment of that scope, if there is one.
  ghost predicate FoundBy(t: Tables, scope: Scope, found: Option<PaymentId>) {
    match found
    case Some(id) => id in t.payments && t.payments[id].scope == scope
    case None => forall id | id in t.payments :: t.payments[id].scope != scope
  }

  ghost predicate Violates(t: Tables, d: Draft, otherViolation: bool) {
    ScopeTaken(t, d.scope) || d.id in t.payments || otherViolation
  }

  predicate PhaseFits(q: Request, act: RequestAction) {
    match act
    case LookSnapshot => q.Looking?
    case TakeLock(_) => q.Locking?
    case PollSnapshot => q.Polling? && !q.missed
    case PollPayment(_) => q.Polling? && q.missed
    case Decide(verdict) => q.Deciding? && (verdict.Some? ==> verdict.value.scope == q.scope)
    case Commit(_, _) => q.Committing?
    case ResolveSnapshot => q.Resolving? && !q.missed
    case ResolvePayment(_) => q.Resolving? && q.missed
    case Vanish => true
    case Arrive(_) => false
  }

  // The request can take this step on these tables.
  ghost predicate ActEnabled(t: Tables, q: Request, act: RequestAction) {
    && PhaseFits(q, act)
    && (act.PollPayment? || act.ResolvePayment? ==> FoundBy(t, q.scope, act.found))
  }

  ghost predicate RequestEnabled(s: State, r: nat, act: RequestAction) {
    if r !in s.requests then act.Arrive? else ActEnabled(s.db, s.requests[r], act)
  }

  predicate WorkFits(k: Worker, act: WorkerAction) {
    match act
    case FetchRequests(_, _) => k.Idle?
    case ReadPayment => k.Handling? && k.todo != [] && k.seen.NotRead?
    case Attempt(_, _, _, _) => k.Handling? && k.todo != [] && k.seen.Read?
    case FetchFanout(_, _) => k.Handling? && k.todo == []
    case Publish(_, _, _) => k.Publishing? && k.todo != []
    case Rest => (k.Handling? || k.Publishing?) && k.todo == []
    case Crash(_) => true
  }

  // A worker in this phase can take this step on these tables.
  ghost predicate WorkEnabled(cfg: Settings, t: Tables, k: Worker, act: WorkerAction) {
    WorkFits(k, act) &&
    match act
    case FetchRequests(now, batch) => IsBatch(t, false, now, cfg.batchSize, batch)
    case ReadPayment => true
    case Attempt(result, calls, _, _) => if Claims(t, k) then CallsFit(result, calls) else calls == 0
    case FetchFanout(now, batch) => cfg.publishes && IsBatch(t, true, now, cfg.batchSize, batch)
    case Publish(_, _, _) => true
    case Rest => k.Handling? ==> !cfg.publishes
    case Crash(calls) => calls <= (if Claims(t, k) then CALLS_PER_ATTEMPT else 0)
  }

  ghost predicate WorkerEnabled(cfg: Settings, s: State, w: nat, act: WorkerAction) {
    WorkEnabled(cfg, s.db, WorkerOf(s, w), act)
  }

  ghost predicate Enabled(cfg: Settings, s: State, step: Step) {
    match step
    case Request(r, act) => RequestEnabled(s, r, act)
    case Review(id, _, _) => InReview(s.db, id)
    case Work(w, act) => WorkerEnabled(cfg, s, w, act)
  }

  // ----- Effects -----

  function ReplaySnapshot(t: Tables, scope: Scope, otherwise: Request): Request {
    if scope in t.snapshots then Replied(scope, t.snapshots[scope].response, FromSnapshot) else otherwise
  }

  function ReplayPayment(t: Tables, scope: Scope, found: Option<PaymentId>, otherwise: Request): Request {
    if found.Some? && found.value in t.payments
    then Replied(scope, ReplyFromPayment(found.value, t.payments[found.value]), FromPayment)
    else otherwise
  }

  // The next phase of a request that is already known and does not commit.
  function NextPhase(t: Tables, q: Request, act: RequestAction): Request
    requires PhaseFits(q, act)
  {
    match act
    case LookSnapshot => ReplaySnapshot(t, q.scope, Locking(q.scope))
    case TakeLock(acquired) => if acquired then Deciding(q.scope) else Polling(q.scope, 0, false)
    case PollSnapshot => ReplaySnapshot(t, q.scope, Polling(q.scope, q.round, true))
    case PollPayment(found) =>
      ReplayPayment(t, q.scope, found,
                    if q.round + 1 == POLL_ROUNDS then Refused(q.scope, WaitedTooLong)
                    else Polling(q.scope, q.round + 1, false))
    case Decide(verdict) =>
      if verdict.Some? then Committing(q.scope, verdict.value) else Refused(q.scope, ControlsDenied)
    case ResolveSnapshot => ReplaySnapshot(t, q.scope, Resolving(q.scope, q.scopeWasTaken, true))
    case ResolvePayment(found) => ReplayPayment(t, q.scope, found, Refused(q.scope, Conflict(q.scopeWasTaken)))
    case _ => q
  }

  // What a step of a request that is already known leaves of the tables and of the request.
  ghost function ActTables(t: Tables, q: Request, act: RequestAction): Tables
    requires PhaseFits(q, act)
  {
    if act.Commit? && !Violates(t, q.draft, act.otherViolation) then Create(t, q.draft, act.at) else t
  }

  ghost function ActPhase(t: Tables, q: Request, act: RequestAction): Request
    requires PhaseFits(q, act)
  {
    if !act.Commit? then NextPhase(t, q, act)
    else if Violates(t, q.draft, act.otherViolation) then Resolving(q.scope, ScopeTaken(t, q.draft.scope), false)
    else Replied(q.scope, ReplyFor(q.draft), Created)
  }

  ghost function ApplyRequest(s: State, r: nat, act: RequestAction): State
    requires RequestEnabled(s, r, act)
  {
    match act
    case Arrive(scope) => s.(requests := s.requests[r := Looking(scope)])
    case Vanish => s.(requests := s.requests - {r})
    case Commit(otherViolation, _) =>
      var q := s.requests[r];
      var s' := s.(db := ActTables(s.db, q, act), requests := s.requests[r := ActPhase(s.db, q, act)]);
      if Violates(s.db, q.draft, otherViolation) then s'
      else s'.(history := s.history.(born := s.history.born[q.draft.id := StatusFor(q.draft.risk, q.draft.aml)]))
    case _ => s.(requests := s.requests[r := ActPhase(s.db, s.requests[r], act)])
  }

  function SetWorker(s: State, w: nat, k: Worker): State {
    s.(workers := s.workers[w := k])
  }

  function Times(id: PaymentId, n: nat): multiset<PaymentId> {
    multiset{}[id := n]
  }

  // What a step of a worker leaves of the tables and of the worker.
  function WorkTables(cfg: Settings, t: Tables, k: Worker, act: WorkerAction): Tables
    requires WorkFits(k, act)
  {
    match act
    case Attempt(result, _, delay, at) => HandleRequest(cfg, t, k.todo[0], k.seen.row, result, delay, at)
    case Publish(published, delay, at) => HandleFanout(cfg, t, k.todo[0], published, delay, at)
    case _ => t
  }

  function WorkPhase(t: Tables, k: Worker, act: WorkerAction): Worker
    requires WorkFits(k, act)
  {
    match act
    case FetchRequests(_, batch) => Handling(batch, NotRead)
    case ReadPayment => Handling(k.todo, Read(Lookup(t, k.todo[0].row.aggregate)))
    case Attempt(_, _, _, _) => Handling(k.todo[1..], NotRead)
    case FetchFanout(_, batch) => Publishing(batch)
    case Publish(_, _, _) => Publishing(k.todo[1..])
    case Rest => Idle
    case Crash(_) => Idle
  }

  function AfterWork(cfg: Settings, s: State, w: nat, act: WorkerAction): State
    requires WorkFits(WorkerOf(s, w), act)
  {
    var k := WorkerOf(s, w);
    SetWorker(s.(db := WorkTables(cfg, s.db, k, act)), w, WorkPhase(s.db, k, act))
  }

  function ApplyAttempt(cfg: Settings, s: State, w: nat, result: CallResult, calls: nat, delay: nat, at: Stamp): State
    requires WorkerOf(s, w).Handling? && WorkerOf(s, w).todo != [] && WorkerOf(s, w).seen.Read?
  {
    var k := WorkerOf(s, w);
    var f := k.todo[0];
    var s' := AfterWork(cfg, s, w, Attempt(result, calls, delay, at));
    if Winning(s, w) then
      s'.(history := s.history.(
            calls := s.history.calls + Times(f.row.aggregate, calls),
            wins := s.history.wins + [Win(f.row.aggregate, k.seen.row.value.version, Finalises(cfg, f, result))]))
    else s'
  }

  function ApplyCrash(s: State, w: nat, calls: nat): State {
    var k := WorkerOf(s, w);
    var s' := SetWorker(s, w, Idle);
    if k.Handling? && k.todo != [] && calls > 0 then
      var id := k.todo[0].row.aggregate;
      s'.(history := s.history.(calls := s.history.calls + Times(id, calls), lost := s.history.lost + Times(id, 1)))
    else s'
  }

  ghost function ApplyWorker(cfg: Settings, s: State, w: nat, act: WorkerAction): State
    requires WorkerEnabled(cfg, s, w, act)
  {
    match act
    case Attempt(result, calls, delay, at) => ApplyAttempt(cfg, s, w, result, calls, delay, at)
    case Crash(calls) => ApplyCrash(s, w, calls)
    case _ => AfterWork(cfg, s, w, act)
  }

  ghost function ApplyReview(s: State, id: PaymentId, approve: bool, at: Stamp): State {
    if approve
    then s.(db := Approve(s.db, id, at), history := s.history.(approved := s.history.approved + {id}))
    else s.(db := RejectReview(s.db, id))
  }

  ghost function Apply(cfg: Settings, s: State, step: Step): State
    requires Enabled(cfg, s, step)
  {
    match step
    case Request(r, act) => ApplyRequest(s, r, act)
    case Review(id, approve, at) => ApplyReview(s, id, approve, at)
    case Work(w, act) => ApplyWorker(cfg, s, w, act)
  }

  // ----- Runs -----

  // `states[k]` is the state before `steps[k]`.
  ghost predicate IsRun(cfg: Settings, states: seq<State>, steps: seq<Step>) {
    && |states| == |steps| + 1
    && forall k | 0 <= k < |steps| ::
         Enabled(cfg, states[k], steps[k]) && states[k + 1] == Apply(cfg, states[k], steps[k])
  }

  // Only one worker process is running.
  predicate Solo(step: Step) {
    step.Work? ==> step.w == 0
  }

  ghost predicate IsSoloRun(cfg: Settings, states: seq<State>, steps: seq<Step>) {
    IsRun(cfg, states, steps) && forall k | 0 <= k < |steps| :: Solo(steps[k])
  }

  // One more step at the end of a run.
  lemma Extend(cfg: Settings, states: seq<State>, steps: seq<Step>, step: Step)
    returns (states': seq<State>, steps': seq<Step>)
    requires IsRun(cfg, states, steps) && Enabled(cfg, states[|steps|], step)
    ensures IsRun(cfg, states', steps') && steps' == steps + [step]
    ensures states' == states + [Apply(cfg, states[|steps|], step)]
    ensures states'[0] == states[0] && states'[|steps'|] == Apply(cfg, states[|steps|], step)
  {
    states', steps' := states + [Apply(cfg, states[|steps|], step)], steps + [step];
    forall k | 0 <= k < |steps'|
      ensures Enabled(cfg, states'[k], steps'[k]) && states'[k + 1] == Apply(cfg, states'[k], steps'[k])
    {
      if k < |steps| {
        assert states'[k] == states[k] && states'[k + 1] == states[k + 1] && steps'[k] == steps[k];
      }
    }
  }
}
