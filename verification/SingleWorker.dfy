/** What holds in every run with one worker process, under every interleaving with create requests,
    reviews and crashes. */
module SingleWorker {
  import opened Contracts
  import opened Store
  import opened Ledger
  import opened Protocol

  // Every row the worker still has to handle is as it was fetched, and waits to be handled once.
  ghost predicate Live(t: Tables, todo: seq<Fetched>, fanout: bool) {
    && (forall k | 0 <= k < |todo| :: Current(t, todo[k], fanout))
    && (forall j, k | 0 <= j < k < |todo| :: todo[j].id != todo[k].id)
  }

  ghost predicate WorkerSound(t: Tables, k: Worker) {
    match k
    case Idle => true
    case Handling(todo, seen) =>
      && Live(t, todo, false)
      && (seen.Read? ==> todo != [] && seen.row == Lookup(t, todo[0].row.aggregate))
    case Publishing(todo) => Live(t, todo, true)
  }

  // How many attempts a payment with this row can have used up.
  function AttemptsUsed(cfg: Settings, p: Payment): nat {
    match p.status
    case PROCESSING => if p.version == 0 then 0 else p.version - 1
    case CONFIRMED => cfg.maxAttempts
    case FAILED => cfg.maxAttempts
    case _ => 0
  }

  // What the history says about one payment.
  ghost predicate Faithful(cfg: Settings, h: History, id: PaymentId, p: Payment) {
    && id in h.born
    && (h.born[id] == BLOCKED ==> p.status == BLOCKED)
    && (p.status == IN_REVIEW ==> h.born[id] == IN_REVIEW && id !in h.approved)
    && (p.status == BLOCKED ==> id !in h.approved && h.born[id] != RECEIVED)
    && (p.status != IN_REVIEW && p.status != BLOCKED ==> h.born[id] == RECEIVED || id in h.approved)
    && h.calls[id] <= CALLS_PER_ATTEMPT * (AttemptsUsed(cfg, p) + h.lost[id])
    && (p.status == IN_REVIEW || p.status == BLOCKED ==> h.lost[id] == 0)
  }

  ghost predicate HistorySound(cfg: Settings, s: State) {
    && (forall id | id in s.db.payments :: Faithful(cfg, s.history, id, s.db.payments[id]))
    && (forall id | id in s.history.calls :: id in s.db.payments)
    && (forall id | id in s.history.lost :: id in s.db.payments)
    && (forall id | id in s.history.approved :: id in s.db.payments)
  }

  ghost predicate Inv(cfg: Settings, s: State) {
    && Sound(cfg, s.db)
    && WorkerSound(s.db, WorkerOf(s, 0))
    && HistorySound(cfg, s)
  }

  // ----- Statuses -----

  // Where a status stands in the life of a payment.
  function Rank(s: PaymentStatus): nat {
    match s
    case IN_REVIEW => 0
    case RECEIVED => 1
    case VALIDATED => 2
    case PROCESSING => 3
    case _ => 4
  }

  predicate Climbs(before: PaymentStatus, after: PaymentStatus) {
    before == after || Rank(before) < Rank(after)
  }

  // A payment stays, its status only climbs, its identity and decisions never change.
  ghost predicate PaymentsGrow(t: Tables, t': Tables) {
    forall id | id in t.payments ::
      && id in t'.payments
      && Climbs(t.payments[id].status, t'.payments[id].status)
      && SameIdentity(t.payments[id], t'.payments[id])
  }

  // ----- Each kind of step keeps the invariant -----

  predicate Extends(t: Tables, t': Tables) {
    |t.events| <= |t'.events| && t'.events[..|t.events|] == t.events
  }

  lemma AppendKeepsLive(t: Tables, t': Tables, todo: seq<Fetched>, fanout: bool)
    requires Live(t, todo, fanout) && Extends(t, t')
    ensures Live(t', todo, fanout)
  {
    forall k | 0 <= k < |todo| ensures Current(t', todo[k], fanout) {
      assert Current(t, todo[k], fanout);
      assert t'.events[..|t.events|][todo[k].id] == t'.events[todo[k].id];
    }
  }

  // A new payment, or a review of an old one, does not disturb a worker.
  lemma ApiKeepsWorker(cfg: Settings, t: Tables, t': Tables, id: PaymentId, k: Worker)
    requires Sound(cfg, t) && WorkerSound(t, k) && Extends(t, t') && OnlyPayment(t, t', id)
    requires id in t.payments ==> t.payments[id].status == IN_REVIEW
    ensures WorkerSound(t', k)
  {
    if k.Handling? {
      AppendKeepsLive(t, t', k.todo, false);
      if k.seen.Read? {
        assert Current(t, k.todo[0], false);
        PendingMeansOpen(cfg, t, k.todo[0].id);
      }
    } else if k.Publishing? {
      AppendKeepsLive(t, t', k.todo, true);
    }
  }

  lemma CreateShape(t: Tables, d: Draft, at: Stamp)
    requires d.id !in t.payments
    ensures var t' := Create(t, d, at);
      && Extends(t, t') && OnlyPayment(t, t', d.id) && PaymentsGrow(t, t')
      && t'.payments[d.id] == Payment(d.scope, StatusFor(d.risk, d.aml), d.risk, d.aml, 1, None)
  {
  }

  lemma ReviewShape(t: Tables, id: PaymentId, approve: bool, at: Stamp)
    requires InReview(t, id)
    ensures var t' := if approve then Approve(t, id, at) else RejectReview(t, id);
      && Extends(t, t') && OnlyPayment(t, t', id) && PaymentsGrow(t, t')
      && t'.payments[id].status == (if approve then RECEIVED else BLOCKED)
  {
  }

  lemma CommitKeepsHistory(cfg: Settings, s: State, s': State, id: PaymentId, born: PaymentStatus)
    requires HistorySound(cfg, s) && id !in s.db.payments && OnlyPayment(s.db, s'.db, id)
    requires s'.db.payments[id].status == born && born in {RECEIVED, IN_REVIEW, BLOCKED}
    requires s'.history == s.history.(born := s.history.born[id := born])
    ensures HistorySound(cfg, s')
  {
    assert s.history.calls[id] == 0 && s.history.lost[id] == 0 && id !in s.history.approved;
    forall q | q in s'.db.payments ensures Faithful(cfg, s'.history, q, s'.db.payments[q]) {
      if q != id {
        assert Faithful(cfg, s.history, q, s.db.payments[q]);
      }
    }
  }

  lemma CommitKeepsInv(cfg: Settings, s: State, r: nat, otherViolation: bool, at: Stamp)
    requires Inv(cfg, s) && r in s.requests && s.requests[r].Committing?
    ensures Inv(cfg, ApplyRequest(s, r, Commit(otherViolation, at)))
    ensures PaymentsGrow(s.db, ApplyRequest(s, r, Commit(otherViolation, at)).db)
  {
    var d := s.requests[r].draft;
    var s' := ApplyRequest(s, r, Commit(otherViolation, at));
    if !Violates(s.db, d, otherViolation) {
      CreateKeepsSound(cfg, s.db, d, at);
      CreateShape(s.db, d, at);
      ApiKeepsWorker(cfg, s.db, s'.db, d.id, WorkerOf(s, 0));
      CommitKeepsHistory(cfg, s, s', d.id, StatusFor(d.risk, d.aml));
    }
  }

  lemma ReviewKeepsHistory(cfg: Settings, s: State, s': State, id: PaymentId, approve: bool)
    requires HistorySound(cfg, s) && InReview(s.db, id) && OnlyPayment(s.db, s'.db, id)
    requires s'.db.payments[id].status == (if approve then RECEIVED else BLOCKED)
    requires s'.history == if approve then s.history.(approved := s.history.approved + {id}) else s.history
    ensures HistorySound(cfg, s')
  {
    forall q | q in s'.db.payments ensures Faithful(cfg, s'.history, q, s'.db.payments[q]) {
      assert Faithful(cfg, s.history, q, s.db.payments[q]);
    }
  }

  lemma ReviewKeepsInv(cfg: Settings, s: State, id: PaymentId, approve: bool, at: Stamp)
    requires Inv(cfg, s) && InReview(s.db, id)
    ensures Inv(cfg, ApplyReview(s, id, approve, at))
    ensures PaymentsGrow(s.db, ApplyReview(s, id, approve, at).db)
  {
    var s' := ApplyReview(s, id, approve, at);
    ReviewKeepsSound(cfg, s.db, id, approve, at);
    ReviewShape(s.db, id, approve, at);
    ApiKeepsWorker(cfg, s.db, s'.db, id, WorkerOf(s, 0));
    ReviewKeepsHistory(cfg, s, s', id, approve);
  }

  // In a run with one worker the row read before the compare-and-set is still the row in the table.
  lemma AttemptWins(cfg: Settings, s: State)
    requires Inv(cfg, s)
    requires WorkerOf(s, 0).Handling? && WorkerOf(s, 0).seen.Read?
    ensures WorkerOf(s, 0).todo != [] && Winning(s, 0)
    ensures var f := WorkerOf(s, 0).todo[0];
      && f.row.aggregate in s.db.payments
      && WorkerOf(s, 0).seen.row == Some(s.db.payments[f.row.aggregate])
      && (s.db.payments[f.row.aggregate].status == RECEIVED || s.db.payments[f.row.aggregate].status == PROCESSING)
      && s.db.payments[f.row.aggregate].version == f.row.attempts + 1 <= cfg.maxAttempts
  {
    var f := WorkerOf(s, 0).todo[0];
    assert Current(s.db, f, false);
    PendingMeansOpen(cfg, s.db, f.id);
    assert EventSound(cfg, s.db, f.row);
  }

  // The rest of a batch stays live when its head row is rewritten.
  lemma TailStaysLive(t: Tables, t': Tables, todo: seq<Fetched>, fanout: bool, e: Event, tail: seq<Event>)
    requires todo != [] && Live(t, todo, fanout)
    requires t'.events == t.events[todo[0].id := e] + tail
    ensures Live(t', todo[1..], fanout)
  {
    assert Current(t, todo[0], fanout);
    forall k | 0 <= k < |todo[1..]| ensures Current(t', todo[1..][k], fanout) {
      assert Current(t, todo[k + 1], fanout);
    }
  }

  lemma AttemptKeepsInv(cfg: Settings, s: State, result: CallResult, calls: nat, delay: nat, at: Stamp)
    requires Inv(cfg, s) && WorkerEnabled(cfg, s, 0, Attempt(result, calls, delay, at))
    ensures Inv(cfg, ApplyAttempt(cfg, s, 0, result, calls, delay, at))
    ensures PaymentsGrow(s.db, ApplyAttempt(cfg, s, 0, result, calls, delay, at).db)
  {
    AttemptWins(cfg, s);
    var f := WorkerOf(s, 0).todo[0];
    assert Current(s.db, f, false);
    RequestKeepsSound(cfg, s.db, f, result, delay, at);
    var e, tail, p := RequestEffect(cfg, s.db, f, result, delay, at);
    AttemptKeepsRest(cfg, s, ApplyAttempt(cfg, s, 0, result, calls, delay, at), f, e, tail, p, calls);
  }

  // Given the shape of the new tables, the batch, the history and the statuses are in order too.
  lemma AttemptKeepsRest(cfg: Settings, s: State, s': State, f: Fetched, e: Event, tail: seq<Event>, p: Payment,
                         calls: nat)
    requires HistorySound(cfg, s) && WorkerSound(s.db, WorkerOf(s, 0)) && calls <= CALLS_PER_ATTEMPT
    requires WorkerOf(s, 0).Handling? && WorkerOf(s, 0).todo != [] && f == WorkerOf(s, 0).todo[0]
    requires f.row.aggregate in s.db.payments && f.id < |s.db.events|
    requires var was := s.db.payments[f.row.aggregate];
      && (was.status == RECEIVED || was.status == PROCESSING) && 1 <= was.version <= cfg.maxAttempts
      && ((p.status == PROCESSING && p.version == was.version + 1) || p.status == CONFIRMED || p.status == FAILED)
      && SameIdentity(was, p)
    requires s'.db == s.db.(payments := s.db.payments[f.row.aggregate := p], events := s.db.events[f.id := e] + tail)
    requires WorkerOf(s', 0) == Handling(WorkerOf(s, 0).todo[1..], NotRead)
    requires s'.history.(wins := []) == s.history.(calls := s.history.calls + Times(f.row.aggregate, calls), wins := [])
    ensures WorkerSound(s'.db, WorkerOf(s', 0)) && HistorySound(cfg, s') && PaymentsGrow(s.db, s'.db)
  {
    TailStaysLive(s.db, s'.db, WorkerOf(s, 0).todo, false, e, tail);
    AttemptKeepsHistory(cfg, s, s', f.row.aggregate, p, calls);
  }

  lemma AttemptKeepsHistory(cfg: Settings, s: State, s': State, id: PaymentId, p: Payment, calls: nat)
    requires HistorySound(cfg, s) && id in s.db.payments && calls <= CALLS_PER_ATTEMPT
    requires var was := s.db.payments[id];
      && (was.status == RECEIVED || was.status == PROCESSING) && 1 <= was.version <= cfg.maxAttempts
      && ((p.status == PROCESSING && p.version == was.version + 1) || p.status == CONFIRMED || p.status == FAILED)
    requires s'.db.payments == s.db.payments[id := p]
    requires s'.history.(wins := []) == s.history.(calls := s.history.calls + Times(id, calls), wins := [])
    ensures HistorySound(cfg, s')
  {
    var was := s.db.payments[id];
    assert Faithful(cfg, s.history, id, was);
    assert AttemptsUsed(cfg, p) >= AttemptsUsed(cfg, was) + 1;
    assert s'.history.calls[id] == s.history.calls[id] + calls;
    forall q | q in s'.db.payments ensures Faithful(cfg, s'.history, q, s'.db.payments[q]) {
      if q != id {
        assert Faithful(cfg, s.history, q, s.db.payments[q]);
        assert s'.history.calls[q] == s.history.calls[q];
      }
    }
  }

  // Steps that leave payments and history alone.
  lemma QuietStepKeepsInv(cfg: Settings, s: State, s': State)
    requires Inv(cfg, s) && s'.db.payments == s.db.payments && s'.history == s.history
    requires Sound(cfg, s'.db) && WorkerSound(s'.db, WorkerOf(s', 0))
    ensures Inv(cfg, s') && PaymentsGrow(s.db, s'.db)
  {
    forall q | q in s'.db.payments ensures Faithful(cfg, s'.history, q, s'.db.payments[q]) {
      assert Faithful(cfg, s.history, q, s.db.payments[q]);
    }
  }

  lemma PublishKeepsInv(cfg: Settings, s: State, published: bool, delay: nat, at: Stamp)
    requires Inv(cfg, s) && WorkerEnabled(cfg, s, 0, Publish(published, delay, at))
    ensures Inv(cfg, ApplyWorker(cfg, s, 0, Publish(published, delay, at)))
    ensures PaymentsGrow(s.db, ApplyWorker(cfg, s, 0, Publish(published, delay, at)).db)
  {
    PublishKeepsBatch(cfg, s.db, WorkerOf(s, 0).todo, published, delay, at);
    QuietStepKeepsInv(cfg, s, ApplyWorker(cfg, s, 0, Publish(published, delay, at)));
  }

  lemma PublishKeepsBatch(cfg: Settings, t: Tables, todo: seq<Fetched>, published: bool, delay: nat, at: Stamp)
    requires Sound(cfg, t) && todo != [] && Live(t, todo, true)
    ensures var t' := HandleFanout(cfg, t, todo[0], published, delay, at);
      t'.payments == t.payments && Sound(cfg, t') && Live(t', todo[1..], true)
  {
    var t' := HandleFanout(cfg, t, todo[0], published, delay, at);
    assert Current(t, todo[0], true);
    FanoutKeepsSound(cfg, t, todo[0], published, delay, at);
    assert t'.events == t.events[todo[0].id := t'.events[todo[0].id]] + [];
    TailStaysLive(t, t', todo, true, t'.events[todo[0].id], []);
  }

  lemma CrashKeepsHistory(cfg: Settings, s: State, s': State, id: PaymentId, calls: nat)
    requires HistorySound(cfg, s) && id in s.db.payments && s'.db == s.db && calls <= CALLS_PER_ATTEMPT
    requires s.db.payments[id].status != IN_REVIEW && s.db.payments[id].status != BLOCKED
    requires s'.history ==
      s.history.(calls := s.history.calls + Times(id, calls), lost := s.history.lost + Times(id, 1))
    ensures HistorySound(cfg, s')
  {
    forall q | q in s'.db.payments ensures Faithful(cfg, s'.history, q, s'.db.payments[q]) {
      assert Faithful(cfg, s.history, q, s.db.payments[q]);
      assert s'.history.calls[q] == s.history.calls[q] + (if q == id then calls else 0);
      assert s'.history.lost[q] == s.history.lost[q] + (if q == id then 1 else 0);
    }
  }

  lemma CrashKeepsInv(cfg: Settings, s: State, calls: nat)
    requires Inv(cfg, s) && WorkerEnabled(cfg, s, 0, Crash(calls))
    ensures Inv(cfg, ApplyCrash(s, 0, calls)) && PaymentsGrow(s.db, ApplyCrash(s, 0, calls).db)
  {
    if calls > 0 {
      AttemptWins(cfg, s);
      CrashKeepsHistory(cfg, s, ApplyCrash(s, 0, calls), WorkerOf(s, 0).todo[0].row.aggregate, calls);
    } else {
      QuietStepKeepsInv(cfg, s, ApplyCrash(s, 0, calls));
    }
  }

  lemma WorkKeepsInv(cfg: Settings, s: State, act: WorkerAction)
    requires Inv(cfg, s) && WorkerEnabled(cfg, s, 0, act)
    ensures Inv(cfg, ApplyWorker(cfg, s, 0, act))
    ensures PaymentsGrow(s.db, ApplyWorker(cfg, s, 0, act).db)
  {
    if act.Attempt? {
      AttemptKeepsInv(cfg, s, act.result, act.calls, act.delay, act.at);
    } else if act.Publish? {
      PublishKeepsInv(cfg, s, act.published, act.delay, act.at);
    } else if act.Crash? {
      CrashKeepsInv(cfg, s, act.calls);
    } else {
      QuietStepKeepsInv(cfg, s, ApplyWorker(cfg, s, 0, act));
    }
  }

  lemma RequestKeepsInv(cfg: Settings, s: State, r: nat, act: RequestAction)
    requires Inv(cfg, s) && RequestEnabled(s, r, act)
    ensures Inv(cfg, ApplyRequest(s, r, act))
    ensures PaymentsGrow(s.db, ApplyRequest(s, r, act).db)
  {
    if act.Commit? {
      CommitKeepsInv(cfg, s, r, act.otherViolation, act.at);
    } else {
      QuietStepKeepsInv(cfg, s, ApplyRequest(s, r, act));
    }
  }

  lemma StepKeepsInv(cfg: Settings, s: State, step: Step)
    requires Inv(cfg, s) && Enabled(cfg, s, step) && Solo(step)
    ensures Inv(cfg, Apply(cfg, s, step))
    ensures PaymentsGrow(s.db, Apply(cfg, s, step).db)
  {
    match step
    case Request(r, act) => RequestKeepsInv(cfg, s, r, act);
    case Review(id, approve, at) => ReviewKeepsInv(cfg, s, id, approve, at);
    case Work(w, act) => WorkKeepsInv(cfg, s, act);
  }

  // ----- Whole runs -----

  lemma {:induction false} RunKeepsInv(cfg: Settings, states: seq<State>, steps: seq<Step>, k: nat)
    requires IsSoloRun(cfg, states, steps) && k <= |steps| && Inv(cfg, states[0])
    ensures Inv(cfg, states[k])
  {
    if k > 0 {
      RunKeepsInv(cfg, states, steps, k - 1);
      StepKeepsInv(cfg, states[k - 1], steps[k - 1]);
    }
  }

  // The ledger invariant in every state of every run from the empty tables.
  lemma LedgerInvariant(cfg: Settings, states: seq<State>, steps: seq<Step>, k: nat)
    requires IsSoloRun(cfg, states, steps) && states[0] == START && k <= |steps|
    ensures Sound(cfg, states[k].db)
    ensures Inv(cfg, states[k])
  {
    assert WorkerOf(START, 0) == Idle;
    RunKeepsInv(cfg, states, steps, k);
  }

  ghost predicate Growing(states: seq<State>) {
    forall k | 0 <= k < |states| - 1 ::
      PaymentsGrow(states[k].db, states[k + 1].db) && states[k].history.calls <= states[k + 1].history.calls
  }

  lemma StepAddsCalls(cfg: Settings, s: State, step: Step)
    requires Enabled(cfg, s, step)
    ensures s.history.calls <= Apply(cfg, s, step).history.calls
  {
  }

  lemma RunGrows(cfg: Settings, states: seq<State>, steps: seq<Step>)
    requires IsSoloRun(cfg, states, steps) && states[0] == START
    ensures Growing(states)
  {
    forall k | 0 <= k < |steps|
      ensures PaymentsGrow(states[k].db, states[k + 1].db)
      ensures states[k].history.calls <= states[k + 1].history.calls
    {
      LedgerInvariant(cfg, states, steps, k);
      StepKeepsInv(cfg, states[k], steps[k]);
      StepAddsCalls(cfg, states[k], steps[k]);
    }
  }

  lemma {:induction false} GrowthAdds(states: seq<State>, i: nat, j: nat)
    requires Growing(states) && i <= j < |states|
    ensures PaymentsGrow(states[i].db, states[j].db)
    ensures states[i].history.calls <= states[j].history.calls
    decreases j - i
  {
    if i < j {
      GrowthAdds(states, i, j - 1);
    }
  }

  // Between any two states of a run the status of a payment only climbs, and a terminal status is for
  // ever, although the compare-and-set looks at no status.
  lemma StatusOnlyClimbs(cfg: Settings, states: seq<State>, steps: seq<Step>, i: nat, j: nat, id: PaymentId)
    requires IsSoloRun(cfg, states, steps) && states[0] == START && i <= j <= |steps|
    requires id in states[i].db.payments
    ensures id in states[j].db.payments
    ensures Climbs(states[i].db.payments[id].status, states[j].db.payments[id].status)
    ensures Terminal(states[i].db.payments[id].status) ==>
      states[j].db.payments[id].status == states[i].db.payments[id].status
  {
    RunGrows(cfg, states, steps);
    GrowthAdds(states, i, j);
  }

  lemma ChargedIsCleared(cfg: Settings, s: State, id: PaymentId)
    requires Inv(cfg, s) && id in s.history.calls
    ensures id in s.db.payments && id in s.history.born
    ensures s.history.born[id] == RECEIVED || id in s.history.approved
    ensures s.history.born[id] != BLOCKED
    ensures s.db.payments[id].status != BLOCKED && s.db.payments[id].status != IN_REVIEW
  {
    assert Faithful(cfg, s.history, id, s.db.payments[id]);
  }

  // The provider is only ever called for a payment that was accepted at creation or approved before,
  // never for one created as blocked, and a payment it was called for is never blocked afterwards.
  lemma OnlyClearedPaymentsAreCharged(cfg: Settings, states: seq<State>, steps: seq<Step>, k: nat, j: nat,
                                      id: PaymentId)
    requires IsSoloRun(cfg, states, steps) && states[0] == START && k <= j <= |steps|
    requires id in states[k].history.calls
    ensures id in states[k].history.born
    ensures states[k].history.born[id] == RECEIVED || id in states[k].history.approved
    ensures states[k].history.born[id] != BLOCKED
    ensures id in states[j].db.payments
    ensures states[j].db.payments[id].status != BLOCKED && states[j].db.payments[id].status != IN_REVIEW
  {
    LedgerInvariant(cfg, states, steps, k);
    ChargedIsCleared(cfg, states[k], id);
    LedgerInvariant(cfg, states, steps, j);
    RunGrows(cfg, states, steps);
    GrowthAdds(states, k, j);
    ChargedIsCleared(cfg, states[j], id);
  }

  // At most three provider calls for each attempt the settings allow, plus three for each attempt that
  // crashed before its commit. Without crashes that is three times the attempt limit.
  lemma ProviderCallBudget(cfg: Settings, states: seq<State>, steps: seq<Step>, k: nat, id: PaymentId)
    requires IsSoloRun(cfg, states, steps) && states[0] == START && k <= |steps|
    ensures states[k].history.calls[id] <= 3 * (cfg.maxAttempts + states[k].history.lost[id])
  {
    LedgerInvariant(cfg, states, steps, k);
    if id in states[k].history.calls {
      var t := states[k].db;
      var p := t.payments[id];
      assert Faithful(cfg, states[k].history, id, p);
      assert Balanced(p, t.events, id);
      if p.status == PROCESSING {
        var i := FindHit(t.events, id, RequestPending);
        assert EventSound(cfg, t, t.events[i]);
      }
      assert AttemptsUsed(cfg, p) <= cfg.maxAttempts;
    }
  }
}
