/** One payment per idempotency key, and one answer, under every interleaving of create requests with
    each other, with reviews and with any number of workers. The lock is free to admit any number of
    requests with the same key, as it does when it expires early or its server is down. */
module Idempotency {
  import opened Contracts
  import opened Store
  import opened Ledger
  import opened Protocol

  // The same payment with the same decisions.
  predicate SameAnswer(a: Response, b: Response) {
    a.paymentId == b.paymentId && a.risk == b.risk && a.aml == b.aml
  }

  // Payments and snapshots stand in one-to-one correspondence through their scopes.
  ghost predicate Paired(t: Tables) {
    && (forall id | id in t.payments :: Snapshotted(t, id))
    && (forall scope | scope in t.snapshots ::
          t.snapshots[scope].paymentId in t.payments && t.payments[t.snapshots[scope].paymentId].scope == scope)
  }

  predicate Snapshotted(t: Tables, id: PaymentId)
    requires id in t.payments
  {
    var p := t.payments[id];
    && p.scope in t.snapshots
    && t.snapshots[p.scope].paymentId == id
    && SameAnswer(t.snapshots[p.scope].response, ReplyFromPayment(id, p))
  }

  predicate RequestSound(t: Tables, q: Protocol.Request) {
    match q
    case Committing(scope, draft) => draft.scope == scope
    case Resolving(scope, scopeWasTaken, missed) => scopeWasTaken ==> scope in t.snapshots && !missed
    case Replied(scope, reply, source) =>
      && scope in t.snapshots && SameAnswer(reply, t.snapshots[scope].response)
      && (source != FromPayment ==> reply == t.snapshots[scope].response)
    case Refused(_, why) => why.Conflict? ==> !why.scopeWasTaken
    case _ => true
  }

  ghost predicate IdemInv(s: State) {
    Paired(s.db) && forall r | r in s.requests :: RequestSound(s.db, s.requests[r])
  }

  // ----- Steps -----

  // No payment or snapshot comes or goes, and no payment changes its identity.
  ghost predicate Neutral(t: Tables, t': Tables) {
    && t'.snapshots == t.snapshots
    && t'.payments.Keys == t.payments.Keys
    && forall id | id in t.payments :: id in t'.payments && SameIdentity(t.payments[id], t'.payments[id])
  }

  lemma RequestIsNeutral(cfg: Settings, t: Tables, f: Fetched, seen: Option<Payment>, r: CallResult, delay: nat,
                         at: Stamp)
    ensures Neutral(t, HandleRequest(cfg, t, f, seen, r, delay, at))
  {
  }

  lemma NeutralKeepsIdem(s: State, s': State)
    requires IdemInv(s) && Neutral(s.db, s'.db) && s'.requests == s.requests
    ensures IdemInv(s')
  {
    forall id | id in s'.db.payments ensures Snapshotted(s'.db, id) {
      assert Snapshotted(s.db, id);
    }
    forall scope | scope in s'.db.snapshots
      ensures s'.db.snapshots[scope].paymentId in s'.db.payments
      ensures s'.db.payments[s'.db.snapshots[scope].paymentId].scope == scope
    {
      assert s.db.snapshots[scope].paymentId in s.db.payments;
    }
    forall r | r in s'.requests ensures RequestSound(s'.db, s'.requests[r]) {
      assert RequestSound(s.db, s.requests[r]);
    }
  }

  // A taken scope always has a snapshot to replay.
  lemma TakenHasSnapshot(t: Tables, scope: Scope)
    requires Paired(t)
    ensures ScopeTaken(t, scope) <==> scope in t.snapshots
  {
    forall id | id in t.payments && t.payments[id].scope == scope ensures scope in t.snapshots {
      assert Snapshotted(t, id);
    }
  }

  lemma CommitKeepsPaired(t: Tables, d: Draft, at: Stamp)
    requires Paired(t) && !Violates(t, d, false)
    ensures Paired(Create(t, d, at))
  {
    var t' := Create(t, d, at);
    forall id | id in t'.payments ensures Snapshotted(t', id) {
      if id != d.id {
        assert Snapshotted(t, id);
      }
    }
    forall scope | scope in t'.snapshots
      ensures t'.snapshots[scope].paymentId in t'.payments
      ensures t'.payments[t'.snapshots[scope].paymentId].scope == scope
    {
      if scope != d.scope {
        assert scope in t.snapshots && t.snapshots[scope].paymentId in t.payments;
      }
    }
  }

  lemma CommitKeepsIdem(s: State, r: nat, otherViolation: bool, at: Stamp)
    requires IdemInv(s) && r in s.requests && s.requests[r].Committing?
    ensures IdemInv(ApplyRequest(s, r, Commit(otherViolation, at)))
  {
    var d := s.requests[r].draft;
    var s' := ApplyRequest(s, r, Commit(otherViolation, at));
    assert RequestSound(s.db, s.requests[r]);
    TakenHasSnapshot(s.db, d.scope);
    if !Violates(s.db, d, otherViolation) {
      CommitKeepsPaired(s.db, d, at);
    }
    forall x | x in s'.requests ensures RequestSound(s'.db, s'.requests[x]) {
      if x != r {
        assert RequestSound(s.db, s.requests[x]);
      }
    }
  }

  lemma PhaseKeepsSound(t: Tables, q: Protocol.Request, act: RequestAction)
    requires Paired(t) && RequestSound(t, q) && PhaseFits(q, act)
    requires act.PollPayment? || act.ResolvePayment? ==> FoundBy(t, q.scope, act.found)
    ensures RequestSound(t, NextPhase(t, q, act))
  {
    if (act.PollPayment? || act.ResolvePayment?) && act.found.Some? {
      assert Snapshotted(t, act.found.value);
    }
  }

  lemma WorkIsNeutral(cfg: Settings, s: State, w: nat, act: WorkerAction)
    requires WorkerEnabled(cfg, s, w, act)
    ensures Neutral(s.db, ApplyWorker(cfg, s, w, act).db)
    ensures ApplyWorker(cfg, s, w, act).requests == s.requests
  {
    if act.Attempt? {
      var k := WorkerOf(s, w);
      RequestIsNeutral(cfg, s.db, k.todo[0], k.seen.row, act.result, act.delay, act.at);
    }
  }

  lemma RequestKeepsIdem(s: State, r: nat, act: RequestAction)
    requires IdemInv(s) && RequestEnabled(s, r, act)
    ensures IdemInv(ApplyRequest(s, r, act))
  {
    if act.Commit? {
      CommitKeepsIdem(s, r, act.otherViolation, act.at);
    } else if !act.Arrive? && !act.Vanish? {
      PhaseKeepsSound(s.db, s.requests[r], act);
    }
  }

  lemma StepKeepsIdem(cfg: Settings, s: State, step: Step)
    requires IdemInv(s) && Enabled(cfg, s, step)
    ensures IdemInv(Apply(cfg, s, step))
  {
    match step
    case Request(r, act) =>
      RequestKeepsIdem(s, r, act);
    case Review(id, approve, at) =>
      NeutralKeepsIdem(s, ApplyReview(s, id, approve, at));
    case Work(w, act) =>
      WorkIsNeutral(cfg, s, w, act);
      NeutralKeepsIdem(s, ApplyWorker(cfg, s, w, act));
  }

  ghost predicate SnapshotsGrow(t: Tables, t': Tables) {
    forall scope | scope in t.snapshots :: scope in t'.snapshots && t'.snapshots[scope] == t.snapshots[scope]
  }

  lemma StepKeepsSnapshots(cfg: Settings, s: State, step: Step)
    requires Enabled(cfg, s, step)
    ensures SnapshotsGrow(s.db, Apply(cfg, s, step).db)
  {
    if step.Work? {
      WorkIsNeutral(cfg, s, step.w, step.work);
    }
  }

  // ----- Whole runs -----

  lemma {:induction false} RunKeepsIdem(cfg: Settings, states: seq<State>, steps: seq<Step>, k: nat)
    requires IsRun(cfg, states, steps) && states[0] == START && k <= |steps|
    ensures IdemInv(states[k])
  {
    if k > 0 {
      RunKeepsIdem(cfg, states, steps, k - 1);
      StepKeepsIdem(cfg, states[k - 1], steps[k - 1]);
    }
  }

  lemma {:induction false} GrowthAdds(states: seq<State>, i: nat, j: nat)
    requires forall k | 0 <= k < |states| - 1 :: SnapshotsGrow(states[k].db, states[k + 1].db)
    requires i <= j < |states|
    ensures SnapshotsGrow(states[i].db, states[j].db)
    decreases j - i
  {
    if i < j {
      GrowthAdds(states, i, j - 1);
    }
  }

  lemma SnapshotsAreForEver(cfg: Settings, states: seq<State>, steps: seq<Step>, i: nat, j: nat)
    requires IsRun(cfg, states, steps) && i <= j <= |steps|
    ensures SnapshotsGrow(states[i].db, states[j].db)
  {
    forall k | 0 <= k < |steps| ensures SnapshotsGrow(states[k].db, states[k + 1].db) {
      StepKeepsSnapshots(cfg, states[k], steps[k]);
    }
    GrowthAdds(states, i, j);
  }

  // At most one payment per scope, and it exists exactly when its snapshot does, with the same id.
  lemma OnePaymentPerScope(cfg: Settings, states: seq<State>, steps: seq<Step>, k: nat)
    requires IsRun(cfg, states, steps) && states[0] == START && k <= |steps|
    ensures var t := states[k].db;
      && (forall a, b | a in t.payments && b in t.payments && t.payments[a].scope == t.payments[b].scope :: a == b)
      && (forall scope :: scope in t.snapshots <==> exists id :: id in t.payments && t.payments[id].scope == scope)
      && (forall id | id in t.payments :: t.payments[id].scope in t.snapshots
                                          && t.snapshots[t.payments[id].scope].paymentId == id)
  {
    RunKeepsIdem(cfg, states, steps, k);
    var t := states[k].db;
    forall id | id in t.payments
      ensures t.payments[id].scope in t.snapshots && t.snapshots[t.payments[id].scope].paymentId == id
    {
      assert Snapshotted(t, id);
    }
  }

  // All replies a scope ever gets name the same payment with the same decisions, and the replies that
  // do not come from a payment row are equal, the status included.
  lemma AllRepliesAgree(cfg: Settings, states: seq<State>, steps: seq<Step>, i: nat, j: nat, a: nat, b: nat)
    requires IsRun(cfg, states, steps) && states[0] == START && i <= j <= |steps|
    requires a in states[i].requests && states[i].requests[a].Replied?
    requires b in states[j].requests && states[j].requests[b].Replied?
    requires states[i].requests[a].scope == states[j].requests[b].scope
    ensures SameAnswer(states[i].requests[a].reply, states[j].requests[b].reply)
    ensures states[i].requests[a].source != FromPayment && states[j].requests[b].source != FromPayment
      ==> states[i].requests[a].reply == states[j].requests[b].reply
  {
    RunKeepsIdem(cfg, states, steps, i);
    RunKeepsIdem(cfg, states, steps, j);
    assert RequestSound(states[i].db, states[i].requests[a]);
    assert RequestSound(states[j].db, states[j].requests[b]);
    SnapshotsAreForEver(cfg, states, steps, i, j);
  }

  // A commit that fails leaves the tables alone; it fails by the key exactly when the scope has a
  // snapshot, and its next lookup then finds that snapshot.
  lemma LoserLeavesNothingAndFindsWinner(cfg: Settings, states: seq<State>, steps: seq<Step>, k: nat)
    requires IsRun(cfg, states, steps) && states[0] == START && k < |steps|
    requires steps[k].Request? && steps[k].request.Commit?
    requires states[k + 1].requests[steps[k].r].Resolving?
    ensures states[k + 1].db == states[k].db
    ensures var q := states[k + 1].requests[steps[k].r];
      && (q.scopeWasTaken <==> q.scope in states[k].db.snapshots)
      && forall j | k < j <= |steps| && q.scopeWasTaken ::
           q.scope in states[j].db.snapshots && NextPhase(states[j].db, q, ResolveSnapshot).Replied?
  {
    var r := steps[k].r;
    RunKeepsIdem(cfg, states, steps, k);
    assert Enabled(cfg, states[k], steps[k]) && states[k + 1] == Apply(cfg, states[k], steps[k]);
    assert RequestSound(states[k].db, states[k].requests[r]);
    TakenHasSnapshot(states[k].db, states[k].requests[r].scope);
    var q := states[k + 1].requests[r];
    forall j | k < j <= |steps| && q.scopeWasTaken ensures q.scope in states[j].db.snapshots {
      SnapshotsAreForEver(cfg, states, steps, k, j);
    }
  }

  // So no request is ever refused as a conflict after losing its commit to the owner of its key.
  lemma KeyLosersAreNeverRefused(cfg: Settings, states: seq<State>, steps: seq<Step>, k: nat, r: nat)
    requires IsRun(cfg, states, steps) && states[0] == START && k <= |steps|
    requires r in states[k].requests
    ensures states[k].requests[r] != Refused(states[k].requests[r].scope, Conflict(true))
  {
    RunKeepsIdem(cfg, states, steps, k);
    assert RequestSound(states[k].db, states[k].requests[r]);
  }
}
