/** How a payment ends, told by what the provider answered to the last call of its last attempt. */
module Verdicts {
  import opened Contracts
  import opened Store
  import opened Protocol
  import opened Tick
  import opened Fleet
  import opened FleetOutcomes
  import opened Retry
  import opened CallProvider
  import opened OutboxWorker

  // ----- What the last call says -----

  predicate Confirms(last: Try<Answer, CallError>) {
    last.Returned? && last.value.confirmed && !last.value.partialFailure
  }

  // The call failed in a way that is worth another attempt.
  predicate Fails(last: Try<Answer, CallError>) {
    last.Raised? && (last.error.TimedOut? || last.error.ServerError?)
  }

  function Message(last: Try<Answer, CallError>): string
    requires Fails(last)
  {
    match last.error
    case TimedOut(message) => message
    case ServerError(message) => message
  }

  // The payment after an attempt that claimed it. `refused` tells that the breaker let no call through,
  // `used` how many attempts are used up, this one included.
  predicate EndsAs(cfg: Settings, refused: bool, last: Try<Answer, CallError>, used: nat, p: Payment) {
    if refused then p.status == FAILED && p.lastError == Some("Unexpected processor failure")
    else if Confirms(last) then p.status == CONFIRMED && p.lastError == None
    else if last.Returned? then p.status == FAILED && p.lastError == Some("Partial failure")
    else if Fails(last) && used < cfg.maxAttempts then p.status == PROCESSING
    else if Fails(last) then p.status == FAILED && p.lastError == Some(Message(last))
    else p.status == FAILED && p.lastError == Some("Unexpected processor failure")
  }

  // The request of that payment, and the outcome event.
  predicate RequestEndsAs(cfg: Settings, refused: bool, last: Try<Answer, CallError>, before: Event, after: Event,
                          due: Time)
  {
    && after.aggregate == before.aggregate && after.kind == before.kind && after.createdAt == before.createdAt
    && if !refused && last.Returned? then after.status == Sent
       else if !refused && Fails(last) && before.attempts + 1 < cfg.maxAttempts
       then after.status == before.status && after.attempts == before.attempts + 1 && after.nextAttemptAt == due
       else after.status == OutboxStatus.Failed && after.attempts == before.attempts + 1
  }

  predicate OutcomeEvents(added: seq<Event>, id: PaymentId, status: PaymentStatus, at: Stamp) {
    match status
    case CONFIRMED => added == [Event(id, PaymentConfirmed, Pending, 0, at.createdAt, at.now)]
    case FAILED => added == [Event(id, PaymentFailed, Pending, 0, at.createdAt, at.now)]
    case _ => added == []
  }

  // How a payment is asked for: the breakers before and after, and the calls.
  datatype Ask = Ask(breakers: Breakers, before: Memories, provider: string, call: nat -> Try<Answer, CallError>,
                     asked: Time, ended: Time, after: Memories)

  ghost predicate Answers(a: Ask, result: CallResult, calls: nat) {
    Executed(a.breakers, a.before, a.provider, a.call, a.asked, a.ended, result, calls, a.after)
  }

  predicate Refuses(a: Ask) {
    !LetsCall(a.breakers, a.before, a.provider, a.asked)
  }

  // A refused attempt calls nobody; one that is let through calls until a call does not fail, three times at most.
  lemma CallsUntilAnswered(a: Ask, result: CallResult, calls: nat)
    requires Answers(a, result, calls)
    ensures Refuses(a) <==> calls == 0
    ensures calls <= 3 && forall k: nat | 1 <= k < calls :: Fails(a.call(k))
    ensures 1 <= calls < 3 ==> !Fails(a.call(calls))
  {
  }

  // One attempt that claims its payment, on the last of its calls.
  lemma AnswerDecides(cfg: Settings, t: Tables, f: Fetched, seen: Payment, a: Ask, result: CallResult, calls: nat,
                      delay: nat, at: Stamp)
    requires WinsSwap(t, f.row.aggregate, seen.version) && Answers(a, result, calls)
    ensures var t' := HandleRequest(cfg, t, f, Some(seen), result, delay, at); var id := f.row.aggregate;
      && id in t'.payments && EndsAs(cfg, Refuses(a), a.call(calls), f.row.attempts + 1, t'.payments[id])
  {
  }

  lemma AnswerClosesRequest(cfg: Settings, t: Tables, f: Fetched, seen: Payment, a: Ask, result: CallResult,
                            calls: nat, delay: nat, at: Stamp)
    requires WinsSwap(t, f.row.aggregate, seen.version) && Answers(a, result, calls)
    requires f.id < |t.events| && t.events[f.id].attempts == f.row.attempts
    ensures var t' := HandleRequest(cfg, t, f, Some(seen), result, delay, at);
      && f.row.aggregate in t'.payments && |t.events| <= |t'.events|
      && RequestEndsAs(cfg, Refuses(a), a.call(calls), t.events[f.id], t'.events[f.id], at.now + delay)
      && OutcomeEvents(t'.events[|t.events|..], f.row.aggregate, t'.payments[f.row.aggregate].status, at)
  {
    var t' := HandleRequest(cfg, t, f, Some(seen), result, delay, at);
    if t'.payments[f.row.aggregate].status == PROCESSING {
      assert t'.events[|t.events|..] == [];
    } else {
      assert t'.events[|t.events|..] == [t'.events[|t.events|]];
    }
  }

  // ----- Whole runs -----

  // Step `j` is an attempt that claims payment `id`.
  predicate ClaimsPayment(s: State, step: Step, id: PaymentId) {
    && step.Work? && step.work.Attempt? && Winning(s, step.w)
    && WorkerOf(s, step.w).todo[0].row.aggregate == id
  }

  // The last of the first `k` steps that claimed the payment.
  function LastClaim(states: seq<State>, steps: seq<Step>, k: nat, id: PaymentId): Option<nat>
    requires k <= |steps| < |states|
  {
    if k == 0 then None
    else if ClaimsPayment(states[k - 1], steps[k - 1], id) then Some(k - 1)
    else LastClaim(states, steps, k - 1, id)
  }

  lemma {:induction false} LastClaimClaims(states: seq<State>, steps: seq<Step>, k: nat, id: PaymentId)
    requires k <= |steps| < |states| && LastClaim(states, steps, k, id).Some?
    ensures var j := LastClaim(states, steps, k, id).value; j < k && ClaimsPayment(states[j], steps[j], id)
  {
    if !ClaimsPayment(states[k - 1], steps[k - 1], id) {
      LastClaimClaims(states, steps, k - 1, id);
    }
  }

  // Every attempt that claimed a payment asked the provider as `asks` says.
  ghost predicate AskedAll(states: seq<State>, steps: seq<Step>, asks: seq<Ask>) {
    && |asks| == |steps| < |states|
    && forall j | 0 <= j < |steps| && steps[j].Work? && steps[j].work.Attempt? && Winning(states[j], steps[j].w) ::
         Answers(asks[j], steps[j].work.result, steps[j].work.calls)
  }

  function Used(s: State, step: Step): nat
    requires step.Work? && WorkerOf(s, step.w).Handling? && WorkerOf(s, step.w).todo != []
  {
    WorkerOf(s, step.w).todo[0].row.attempts + 1
  }

  // What the last claim makes of the payment; without one it was only created and reviewed.
  ghost predicate Told(cfg: Settings, states: seq<State>, steps: seq<Step>, asks: seq<Ask>, k: nat, id: PaymentId)
    requires k <= |steps| < |states| && |asks| == |steps| && id in states[k].db.payments
  {
    var p := states[k].db.payments[id];
    match LastClaim(states, steps, k, id)
    case None => p.status in {RECEIVED, IN_REVIEW, BLOCKED}
    case Some(j) =>
      LastClaimClaims(states, steps, k, id);
      EndsAs(cfg, Refuses(asks[j]), asks[j].call(steps[j].work.calls), Used(states[j], steps[j]), p)
  }

  // A step that does not claim a payment leaves its row, unless it reviews it.
  lemma OtherStepKeepsRow(cfg: Settings, s: State, step: Step, id: PaymentId)
    requires Enabled(cfg, s, step) && !ClaimsPayment(s, step, id) && id in s.db.payments
    ensures var s' := Apply(cfg, s, step);
      && id in s'.db.payments
      && (s'.db.payments[id] == s.db.payments[id]
          || (s.db.payments[id].status == IN_REVIEW && s'.db.payments[id].status in {RECEIVED, BLOCKED}))
  {
    if step.Work? && step.work.Attempt? {
      SwapDecides(cfg, s, step.w, step.work, id);
    }
  }

  lemma NewRow(cfg: Settings, s: State, step: Step, id: PaymentId)
    requires Enabled(cfg, s, step) && id !in s.db.payments && id in Apply(cfg, s, step).db.payments
    ensures Apply(cfg, s, step).db.payments[id].status in {RECEIVED, IN_REVIEW, BLOCKED}
    ensures !ClaimsPayment(s, step, id)
  {
    if step.Work? && step.work.Attempt? {
      var k := WorkerOf(s, step.w);
      if Winning(s, step.w) {
        WinnerPayments(cfg, s.db, k.todo[0], k.seen.row.value, step.work.result, step.work.delay, step.work.at);
      } else {
        LoserEffect(cfg, s.db, k.todo[0], k.seen.row, step.work.result, step.work.delay, step.work.at);
      }
    }
  }

  lemma ClaimTells(cfg: Settings, s: State, step: Step, a: Ask, id: PaymentId)
    requires Enabled(cfg, s, step) && ClaimsPayment(s, step, id)
    requires Answers(a, step.work.result, step.work.calls)
    ensures id in Apply(cfg, s, step).db.payments
    ensures EndsAs(cfg, Refuses(a), a.call(step.work.calls), Used(s, step), Apply(cfg, s, step).db.payments[id])
  {
    var k := WorkerOf(s, step.w);
    AnswerDecides(cfg, s.db, k.todo[0], k.seen.row.value, a, step.work.result, step.work.calls, step.work.delay,
                  step.work.at);
  }

  lemma {:induction false} LastClaimNeedsRow(cfg: Settings, states: seq<State>, steps: seq<Step>, k: nat, id: PaymentId)
    requires IsRun(cfg, states, steps) && k <= |steps| && LastClaim(states, steps, k, id).Some?
    ensures id in states[k].db.payments
  {
    if ClaimsPayment(states[k - 1], steps[k - 1], id) {
      SwapDecides(cfg, states[k - 1], steps[k - 1].w, steps[k - 1].work, id);
    } else {
      LastClaimNeedsRow(cfg, states, steps, k - 1, id);
      OtherStepKeepsRow(cfg, states[k - 1], steps[k - 1], id);
    }
  }

  lemma {:induction false} RunTells(cfg: Settings, states: seq<State>, steps: seq<Step>, asks: seq<Ask>, k: nat,
                                    id: PaymentId)
    requires IsRun(cfg, states, steps) && states[0] == START && AskedAll(states, steps, asks)
    requires k <= |steps| && id in states[k].db.payments
    ensures Told(cfg, states, steps, asks, k, id)
  {
    if k > 0 {
      var s, step := states[k - 1], steps[k - 1];
      if ClaimsPayment(s, step, id) {
        ClaimTells(cfg, s, step, asks[k - 1], id);
      } else if id in s.db.payments {
        RunTells(cfg, states, steps, asks, k - 1, id);
        OtherStepKeepsRow(cfg, s, step, id);
      } else {
        NewRow(cfg, s, step, id);
        if LastClaim(states, steps, k - 1, id).Some? {
          LastClaimNeedsRow(cfg, states, steps, k - 1, id);
        }
      }
    }
  }

  // In every run with any number of workers: a payment is CONFIRMED if and only if the last call of its last
  // claim was answered as confirmed and not partial.
  lemma ConfirmedExactlyWhen(cfg: Settings, states: seq<State>, steps: seq<Step>, asks: seq<Ask>, k: nat,
                             id: PaymentId, j: Option<nat>)
    requires IsRun(cfg, states, steps) && states[0] == START && AskedAll(states, steps, asks)
    requires k <= |steps| && id in states[k].db.payments && j == LastClaim(states, steps, k, id)
    ensures j.Some? ==> j.value < k && ClaimsPayment(states[j.value], steps[j.value], id)
    ensures states[k].db.payments[id].status == CONFIRMED
      <==> j.Some? && !Refuses(asks[j.value]) && Confirms(asks[j.value].call(steps[j.value].work.calls))
  {
    RunTells(cfg, states, steps, asks, k, id);
    if j.Some? {
      LastClaimClaims(states, steps, k, id);
    }
  }

  // It is FAILED with the error of that answer otherwise: the processor's message when the attempts are used
  // up, a partial failure, or the unexpected error; and PROCESSING exactly while a failed call may be repeated.
  lemma FailedExactlyWhen(cfg: Settings, states: seq<State>, steps: seq<Step>, asks: seq<Ask>, k: nat,
                          id: PaymentId, j: Option<nat>)
    requires IsRun(cfg, states, steps) && states[0] == START && AskedAll(states, steps, asks)
    requires k <= |steps| && id in states[k].db.payments && j == LastClaim(states, steps, k, id)
    ensures j.None? <==> states[k].db.payments[id].status in {RECEIVED, IN_REVIEW, BLOCKED}
    ensures j.Some? ==> j.value < k && ClaimsPayment(states[j.value], steps[j.value], id)
    ensures j.Some? ==>
      var p := states[k].db.payments[id]; var last := asks[j.value].call(steps[j.value].work.calls);
      var refused := Refuses(asks[j.value]); var usedUp := Used(states[j.value], steps[j.value]) >= cfg.maxAttempts;
      && (p.status == PROCESSING <==> !refused && Fails(last) && !usedUp)
      && (p.status == FAILED <==> refused || (!Confirms(last) && (Fails(last) ==> usedUp)))
      && (p.status == FAILED ==> p.lastError == Some(
            if !refused && last.Returned? then "Partial failure"
            else if !refused && Fails(last) then Message(last)
            else "Unexpected processor failure"))
  {
    RunTells(cfg, states, steps, asks, k, id);
    if j.Some? {
      LastClaimClaims(states, steps, k, id);
    }
  }

  // ----- An iteration of the worker -----

  // Each attempt of an iteration that claims its payment ends it as the last of its calls tells.
  lemma IterationEndsAsAnswered(cfg: Settings, asks: Asks, moves: seq<WorkerStep>, d: TickData, i: nat, m: WorkerStep)
    requires ChargedBy(asks, moves, d) && i < |d.charges|
    requires m == Attempts(moves[..1 + 2 * |d.batch|])[i] && WorkFits(m.phase, m.act)
    requires m.after == WorkTables(cfg, m.before, m.phase, m.act) && Claims(m.before, m.phase)
    ensures var f := m.phase.todo[0]; var env := asks.env(i);
      && f.row.aggregate in m.after.payments
      && EndsAs(cfg, !LetsCall(asks.breakers, asks.memories[i], env.provider, env.asked), env.call(d.charges[i].calls),
                f.row.attempts + 1, m.after.payments[f.row.aggregate])
  {
    var env, c := asks.env(i), d.charges[i];
    assert ChargedMove(asks.breakers, m, asks.memories[i], c, env, asks.memories[i + 1]);
    var a := Ask(asks.breakers, asks.memories[i], env.provider, env.call, env.asked, env.ended, asks.memories[i + 1]);
    AnswerDecides(cfg, m.before, m.phase.todo[0], m.phase.seen.row.value, a, c.result, c.calls, c.delay, c.at);
  }
}
