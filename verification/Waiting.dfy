/** What the answer of the lock and the verdict of the controls mean for a create request, over every run. */
module Waiting {
  import opened Contracts
  import opened Store
  import opened Protocol
  import opened Ledger
  import opened Idempotency

  // What a request was told since it arrived: the answer of the lock, how often it has polled in vain, and the
  // verdict of the controls.
  datatype Told = Told(lock: Option<bool>, polls: nat, verdict: Option<Option<Draft>>)

  const NOTHING := Told(None, 0, None)

  function Hears(g: Told, act: RequestAction): Told {
    match act
    case Arrive(_) => NOTHING
    case TakeLock(acquired) => g.(lock := Some(acquired))
    case PollPayment(_) => g.(polls := g.polls + 1)
    case Decide(verdict) => g.(verdict := Some(verdict))
    case _ => g
  }

  function ToldTo(steps: seq<Step>, k: nat, r: nat): Told
    requires k <= |steps|
  {
    if k == 0 then NOTHING
    else if steps[k - 1].Request? && steps[k - 1].r == r then Hears(ToldTo(steps, k - 1, r), steps[k - 1].request)
    else ToldTo(steps, k - 1, r)
  }

  // A request decides and commits behind a granted lock, polls behind a refused one, gives up after five rounds,
  // and commits and answers with the draft the controls gave it.
  predicate Behaves(q: Request, g: Told) {
    match q
    case Looking(_) => g == NOTHING
    case Locking(_) => g == NOTHING
    case Polling(_, round, _) => g == Told(Some(false), round, None) && round < 5
    case Deciding(_) => g == Told(Some(true), 0, None)
    case Committing(scope, d) => g == Told(Some(true), 0, Some(Some(d))) && d.scope == scope
    case Resolving(_, _, _) => g.lock == Some(true) && g.verdict.Some? && g.verdict.value.Some?
    case Refused(_, ControlsDenied) => g == Told(Some(true), 0, Some(None))
    case Refused(_, WaitedTooLong) => g == Told(Some(false), 5, None)
    case Refused(_, Conflict(_)) => g.lock == Some(true) && g.verdict.Some? && g.verdict.value.Some?
    case Replied(scope, reply, Created) =>
      && g.lock == Some(true) && g.polls == 0 && g.verdict.Some? && g.verdict.value.Some?
      && var d := g.verdict.value.value;
         d.scope == scope && reply.paymentId == d.id && reply.risk == d.risk && reply.aml == d.aml
    case Replied(_, _, _) => g.verdict != Some(None)
  }

  ghost predicate AllBehave(s: State, steps: seq<Step>, k: nat)
    requires k <= |steps|
  {
    forall r | r in s.requests :: Behaves(s.requests[r], ToldTo(steps, k, r))
  }

  lemma ActBehaves(t: Tables, q: Request, act: RequestAction, g: Told)
    requires ActEnabled(t, q, act) && !act.Vanish? && Behaves(q, g)
    ensures Behaves(ActPhase(t, q, act), Hears(g, act))
  {
  }

  lemma StepBehaves(cfg: Settings, s: State, steps: seq<Step>, k: nat)
    requires k < |steps| && Enabled(cfg, s, steps[k]) && AllBehave(s, steps, k)
    ensures AllBehave(Apply(cfg, s, steps[k]), steps, k + 1)
  {
    var step := steps[k];
    var s' := Apply(cfg, s, step);
    forall r | r in s'.requests ensures Behaves(s'.requests[r], ToldTo(steps, k + 1, r)) {
      if step.Request? && step.r == r {
        if r in s.requests {
          ActBehaves(s.db, s.requests[r], step.request, ToldTo(steps, k, r));
        }
      } else {
        assert r in s.requests && s'.requests[r] == s.requests[r];
      }
    }
  }

  // In every run each request does what the lock and the controls told it.
  lemma {:induction false} RequestsDoAsTold(cfg: Settings, states: seq<State>, steps: seq<Step>, k: nat)
    requires IsRun(cfg, states, steps) && states[0] == START && k <= |steps|
    ensures AllBehave(states[k], steps, k)
  {
    if k > 0 {
      RequestsDoAsTold(cfg, states, steps, k - 1);
      StepBehaves(cfg, states[k - 1], steps, k - 1);
    }
  }

  // Step `j` commits payment `id` for a request that was granted the lock and whose controls passed.
  predicate CommitsFor(steps: seq<Step>, j: nat, id: PaymentId, p: Payment)
    requires j < |steps|
  {
    && steps[j].Request? && steps[j].request.Commit?
    && var g := ToldTo(steps, j, steps[j].r);
       && g.lock == Some(true) && g.polls == 0 && g.verdict.Some? && g.verdict.value.Some?
       && var d := g.verdict.value.value;
          d.id == id && d.scope == p.scope && d.risk == p.risk && d.aml == p.aml
  }

  ghost predicate WasCommitted(steps: seq<Step>, k: nat, id: PaymentId, p: Payment)
    requires k <= |steps|
  {
    exists j: nat :: j < k && CommitsFor(steps, j, id, p)
  }

  lemma StillCommitted(steps: seq<Step>, k: nat, id: PaymentId, p: Payment, p': Payment)
    requires k < |steps| && WasCommitted(steps, k, id, p) && SameIdentity(p, p')
    ensures WasCommitted(steps, k + 1, id, p')
  {
    var j: nat :| j < k && CommitsFor(steps, j, id, p);
    assert CommitsFor(steps, j, id, p');
  }

  // A payment that a step adds is committed by that step.
  lemma AddedIsCommitted(cfg: Settings, s: State, steps: seq<Step>, k: nat, id: PaymentId)
    requires k < |steps| && Enabled(cfg, s, steps[k]) && AllBehave(s, steps, k)
    requires id in Apply(cfg, s, steps[k]).db.payments
    ensures var p := Apply(cfg, s, steps[k]).db.payments[id];
      if id in s.db.payments then SameIdentity(s.db.payments[id], p) else CommitsFor(steps, k, id, p)
  {
    match steps[k]
    case Request(r, act) =>
      if act.Commit? {
        assert Behaves(s.requests[r], ToldTo(steps, k, r));
      }
    case Review(_, _, _) =>
    case Work(w, act) => WorkIsNeutral(cfg, s, w, act);
  }

  // Every payment was committed, with its decisions, for a request that had been granted the lock and
  // had passed the controls with them.
  lemma {:induction false} EveryPaymentWasGranted(cfg: Settings, states: seq<State>, steps: seq<Step>, k: nat,
                                                  id: PaymentId)
    requires IsRun(cfg, states, steps) && states[0] == START && k <= |steps| && id in states[k].db.payments
    ensures WasCommitted(steps, k, id, states[k].db.payments[id])
  {
    if k > 0 {
      RequestsDoAsTold(cfg, states, steps, k - 1);
      AddedIsCommitted(cfg, states[k - 1], steps, k - 1, id);
      if id in states[k - 1].db.payments {
        EveryPaymentWasGranted(cfg, states, steps, k - 1, id);
        StillCommitted(steps, k - 1, id, states[k - 1].db.payments[id], states[k].db.payments[id]);
      }
    }
  }

  // A request is refused by the controls exactly when they gave no verdict, and gives up exactly when the lock
  // was refused to it and five polls went by without a reply.
  lemma RefusedExactlyWhen(cfg: Settings, states: seq<State>, steps: seq<Step>, k: nat, r: nat)
    requires IsRun(cfg, states, steps) && states[0] == START && k <= |steps| && r in states[k].requests
    ensures var q, g := states[k].requests[r], ToldTo(steps, k, r);
      && (q == Refused(q.scope, ControlsDenied) <==> g.verdict == Some(None))
      && (q == Refused(q.scope, WaitedTooLong) <==> g.lock == Some(false) && g.polls == 5 && !q.Replied?)
      && (q.Deciding? || q.Committing? || q.Resolving? ==> g.lock == Some(true))
      && (q.Polling? ==> g.lock == Some(false))
  {
    RequestsDoAsTold(cfg, states, steps, k);
    assert Behaves(states[k].requests[r], ToldTo(steps, k, r));
  }

  // The fifth poll gives up exactly when no payment has the scope at that access, and replies with one otherwise.
  lemma FifthPollDecides(t: Tables, q: Protocol.Request, act: RequestAction)
    requires ActEnabled(t, q, act) && act.PollPayment? && q.round == 4
    ensures ActPhase(t, q, act) == Refused(q.scope, WaitedTooLong)
      <==> forall id | id in t.payments :: t.payments[id].scope != q.scope
    ensures ActPhase(t, q, act).Replied? <==> exists id :: id in t.payments && t.payments[id].scope == q.scope
  {
  }
}
