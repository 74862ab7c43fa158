/** What the risk and the AML decision of a payment mean for it, over every run with any number of workers. */
module Clearance {
  import opened Contracts
  import opened Store
  import opened Ledger
  import opened Protocol
  import opened Fleet
  import opened FleetOutcomes

  // ----- The two decisions -----

  predicate SomeBlock(p: Payment) {
    p.risk == Block || p.aml == Block
  }

  predicate BothAllow(p: Payment) {
    p.risk == Allow && p.aml == Allow
  }

  // The provider may be called for it.
  predicate Cleared(p: Payment, approved: bool) {
    BothAllow(p) || (!SomeBlock(p) && approved)
  }

  // A block is final, two allowances need no review, and anything else waits for one and is rejected with a
  // reason of its own.
  predicate Ruled(p: Payment, approved: bool) {
    if SomeBlock(p) then p.status == BLOCKED && p.lastError == None && !approved
    else if BothAllow(p) then p.status != BLOCKED && p.status != IN_REVIEW && !approved
    else if approved then p.status != BLOCKED && p.status != IN_REVIEW
    else if p.status == BLOCKED then p.lastError == Some("manual_review_rejected")
    else p.status == IN_REVIEW && p.lastError == None
  }

  ghost predicate RequestsCleared(s: State) {
    forall i | 0 <= i < |s.db.events| && s.db.events[i].kind == PaymentRequested ::
      var id := s.db.events[i].aggregate;
      id in s.db.payments && Cleared(s.db.payments[id], id in s.history.approved)
  }

  ghost predicate CallsCleared(s: State) {
    forall id | id in s.history.calls ::
      id in s.db.payments && Cleared(s.db.payments[id], id in s.history.approved)
  }

  ghost predicate AllRuled(s: State) {
    && (forall id | id in s.db.payments :: Ruled(s.db.payments[id], id in s.history.approved))
    && (forall id | id in s.history.approved :: id in s.db.payments)
  }

  ghost predicate Inv(s: State) {
    AllRuled(s) && RequestsCleared(s) && CallsCleared(s)
  }

  // ----- Each step keeps it -----

  // No payment disappears, its decisions never change, and no approval is taken back.
  ghost predicate DecisionsKept(s: State, s': State) {
    && s.history.approved <= s'.history.approved
    && forall id | id in s.db.payments :: id in s'.db.payments && SameIdentity(s.db.payments[id], s'.db.payments[id])
  }

  lemma CommitKeeps(cfg: Settings, s: State, r: nat, act: RequestAction)
    requires Inv(s) && RequestEnabled(s, r, act) && act.Commit?
    ensures Inv(ApplyRequest(s, r, act)) && DecisionsKept(s, ApplyRequest(s, r, act))
  {
    var d := s.requests[r].draft;
    var s' := ApplyRequest(s, r, act);
    if !Violates(s.db, d, act.otherViolation) {
      assert d.id !in s.history.approved && d.id !in s.history.calls;
      assert s'.db.events == s.db.events + OutboxFor(d, act.at);
    }
  }

  lemma ReviewRules(s: State, id: PaymentId, approve: bool, at: Stamp)
    requires AllRuled(s) && InReview(s.db, id)
    ensures AllRuled(ApplyReview(s, id, approve, at)) && DecisionsKept(s, ApplyReview(s, id, approve, at))
  {
    assert Ruled(s.db.payments[id], id in s.history.approved);
  }

  lemma ReviewRequests(s: State, id: PaymentId, approve: bool, at: Stamp)
    requires RequestsCleared(s) && InReview(s.db, id) && Ruled(s.db.payments[id], id in s.history.approved)
    ensures RequestsCleared(ApplyReview(s, id, approve, at))
  {
    var s' := ApplyReview(s, id, approve, at);
    forall i | 0 <= i < |s'.db.events| && s'.db.events[i].kind == PaymentRequested
      ensures var q := s'.db.events[i].aggregate;
        q in s'.db.payments && Cleared(s'.db.payments[q], q in s'.history.approved)
    {
      if i < |s.db.events| {
        assert s'.db.events[i] == s.db.events[i];
      }
    }
  }

  lemma ReviewKeeps(s: State, id: PaymentId, approve: bool, at: Stamp)
    requires Inv(s) && InReview(s.db, id)
    ensures Inv(ApplyReview(s, id, approve, at)) && DecisionsKept(s, ApplyReview(s, id, approve, at))
  {
    ReviewRules(s, id, approve, at);
    ReviewRequests(s, id, approve, at);
  }

  // What the tables of a worker's step have in common with those before.
  ghost predicate WorkedOn(t: Tables, t': Tables, id: PaymentId) {
    && (forall q | q in t.payments :: q in t'.payments && SameIdentity(t.payments[q], t'.payments[q]))
    && (forall q | q in t'.payments :: q in t.payments)
    && (forall q | q in t.payments && q != id :: t'.payments[q] == t.payments[q])
    && (id in t.payments && t'.payments[id] != t.payments[id] ==> Requestable(t'.payments[id].status))
    && |t.events| <= |t'.events|
    && (forall i | 0 <= i < |t.events| ::
          t'.events[i].kind == t.events[i].kind && t'.events[i].aggregate == t.events[i].aggregate)
    && (forall i | |t.events| <= i < |t'.events| :: t'.events[i].kind != PaymentRequested)
  }

  lemma AttemptWorksOn(cfg: Settings, t: Tables, f: Fetched, seen: Option<Payment>, r: CallResult, delay: nat,
                       at: Stamp)
    ensures WorkedOn(t, HandleRequest(cfg, t, f, seen, r, delay, at), f.row.aggregate)
  {
    var t' := HandleRequest(cfg, t, f, seen, r, delay, at);
    if seen.Some? && WinsSwap(t, f.row.aggregate, seen.value.version) {
      WinnerPayments(cfg, t, f, seen.value, r, delay, at);
      WinnerStatus(cfg, t, f, seen.value, r, delay, at);
      var tail := WinnerEvents(cfg, t, f, seen.value, r, delay, at);
      EventsKeptIsLater(t, t', f.id, tail);
    } else {
      LoserEffect(cfg, t, f, seen, r, delay, at);
      EventsKeptIsLater(t, t', f.id, []);
    }
  }

  lemma WorkKeeps(s: State, s': State, id: PaymentId)
    requires Inv(s) && WorkedOn(s.db, s'.db, id) && s'.history.approved == s.history.approved
    requires id in s.db.payments && Cleared(s.db.payments[id], id in s.history.approved)
    requires forall q | q in s'.history.calls :: q in s.history.calls || q == id
    ensures Inv(s') && DecisionsKept(s, s')
  {
    forall q | q in s'.db.payments ensures Ruled(s'.db.payments[q], q in s'.history.approved) {
      assert Ruled(s.db.payments[q], q in s.history.approved);
    }
    forall i | 0 <= i < |s'.db.events| && s'.db.events[i].kind == PaymentRequested
      ensures var q := s'.db.events[i].aggregate;
        q in s'.db.payments && Cleared(s'.db.payments[q], q in s'.history.approved)
    {
      assert s.db.events[i].kind == PaymentRequested;
    }
  }

  lemma AttemptKeeps(cfg: Settings, s: State, w: nat, act: WorkerAction)
    requires Inv(s) && FleetSound(s) && WorkerEnabled(cfg, s, w, act) && (act.Attempt? || act.Crash?)
    ensures Inv(ApplyWorker(cfg, s, w, act)) && DecisionsKept(s, ApplyWorker(cfg, s, w, act))
  {
    var k := WorkerOf(s, w);
    assert WorkerSound(s.db, k);
    if k.Handling? && k.todo != [] {
      var f := k.todo[0];
      assert IsRequest(s.db, f);
      var id := f.row.aggregate;
      assert id in s.db.payments && Cleared(s.db.payments[id], id in s.history.approved);
      if act.Attempt? {
        AttemptWorksOn(cfg, s.db, f, k.seen.row, act.result, act.delay, act.at);
      } else {
        assert WorkedOn(s.db, s.db, id);
      }
      WorkKeeps(s, ApplyWorker(cfg, s, w, act), id);
    }
  }

  lemma PublishKeeps(cfg: Settings, s: State, w: nat, act: WorkerAction)
    requires Inv(s) && WorkerEnabled(cfg, s, w, act) && act.Publish?
    ensures Inv(ApplyWorker(cfg, s, w, act)) && DecisionsKept(s, ApplyWorker(cfg, s, w, act))
  {
    var s' := ApplyWorker(cfg, s, w, act);
    assert s'.db.payments == s.db.payments && s'.history == s.history && |s'.db.events| == |s.db.events|;
    forall i | 0 <= i < |s'.db.events|
      ensures s'.db.events[i].kind == s.db.events[i].kind && s'.db.events[i].aggregate == s.db.events[i].aggregate
    {
    }
  }

  lemma StepKeepsClearance(cfg: Settings, s: State, step: Step)
    requires Inv(s) && FleetSound(s) && Enabled(cfg, s, step)
    ensures Inv(Apply(cfg, s, step)) && DecisionsKept(s, Apply(cfg, s, step))
  {
    match step
    case Request(r, act) =>
      if act.Commit? {
        CommitKeeps(cfg, s, r, act);
      }
    case Review(id, approve, at) => ReviewKeeps(s, id, approve, at);
    case Work(w, act) =>
      if act.Attempt? || act.Crash? {
        AttemptKeeps(cfg, s, w, act);
      } else if act.Publish? {
        PublishKeeps(cfg, s, w, act);
      }
  }

  lemma {:induction false} ClearanceHolds(cfg: Settings, states: seq<State>, steps: seq<Step>, k: nat)
    requires IsRun(cfg, states, steps) && states[0] == START && k <= |steps|
    ensures Inv(states[k])
  {
    if k > 0 {
      ClearanceHolds(cfg, states, steps, k - 1);
      FleetStaysSound(cfg, states, steps, k - 1);
      StepKeepsClearance(cfg, states[k - 1], steps[k - 1]);
    }
  }

  lemma {:induction false} DecisionsStay(cfg: Settings, states: seq<State>, steps: seq<Step>, j: nat, k: nat)
    requires IsRun(cfg, states, steps) && states[0] == START && j <= k <= |steps|
    ensures DecisionsKept(states[j], states[k])
    decreases k
  {
    if j < k {
      DecisionsStay(cfg, states, steps, j, k - 1);
      ClearanceHolds(cfg, states, steps, k - 1);
      FleetStaysSound(cfg, states, steps, k - 1);
      StepKeepsClearance(cfg, states[k - 1], steps[k - 1]);
      DecisionsTogether(states[j], states[k - 1], states[k]);
    }
  }

  lemma DecisionsTogether(s: State, s': State, s'': State)
    requires DecisionsKept(s, s') && DecisionsKept(s', s'')
    ensures DecisionsKept(s, s'')
  {
  }

  // ----- What follows for whole runs -----

  // A payment with a block in either decision is BLOCKED from then on for ever, was never requested, and
  // the provider is never called for it.
  lemma BlockIsForEver(cfg: Settings, states: seq<State>, steps: seq<Step>, j: nat, k: nat, id: PaymentId)
    requires IsRun(cfg, states, steps) && states[0] == START && j <= k <= |steps|
    requires id in states[j].db.payments
    requires states[j].db.payments[id].risk == Block || states[j].db.payments[id].aml == Block
    ensures id in states[k].db.payments && states[k].db.payments[id].status == BLOCKED
    ensures forall e | e in states[k].db.events && e.aggregate == id :: e.kind != PaymentRequested
    ensures states[k].history.calls[id] == 0
  {
    DecisionsStay(cfg, states, steps, j, k);
    ClearanceHolds(cfg, states, steps, k);
    assert Ruled(states[k].db.payments[id], id in states[k].history.approved);
  }

  // A payment the provider was called for has two allowances, or it has no block and was approved.
  lemma OnlyClearedAreCalled(cfg: Settings, states: seq<State>, steps: seq<Step>, k: nat, id: PaymentId)
    requires IsRun(cfg, states, steps) && states[0] == START && k <= |steps| && id in states[k].history.calls
    ensures id in states[k].db.payments
    ensures var p := states[k].db.payments[id];
      || (p.risk == Allow && p.aml == Allow)
      || (p.risk != Block && p.aml != Block && id in states[k].history.approved)
  {
    ClearanceHolds(cfg, states, steps, k);
  }

  // Two allowances are never reviewed or blocked; a review without a block waits until it is decided, is in
  // work or finished exactly when it was approved, and BLOCKED with that reason when it was rejected.
  lemma ReviewIsNeededExactlyWhen(cfg: Settings, states: seq<State>, steps: seq<Step>, k: nat, id: PaymentId)
    requires IsRun(cfg, states, steps) && states[0] == START && k <= |steps| && id in states[k].db.payments
    ensures var p := states[k].db.payments[id];
      && (p.status == IN_REVIEW ==>
            p.risk != Block && p.aml != Block && (p.risk == Decision.Review || p.aml == Decision.Review))
      && (p.status == BLOCKED ==>
            if p.risk == Block || p.aml == Block then p.lastError == None
            else p.lastError == Some("manual_review_rejected"))
      && (p.status != IN_REVIEW && p.status != BLOCKED
          <==> (p.risk == Allow && p.aml == Allow) || id in states[k].history.approved)
  {
    ClearanceHolds(cfg, states, steps, k);
    assert Ruled(states[k].db.payments[id], id in states[k].history.approved);
  }

  // ----- Replies -----

  // The status of a first reply, by its decisions.
  predicate FirstReply(r: Response) {
    && (r.status == BLOCKED <==> r.risk == Block || r.aml == Block)
    && (r.status == RECEIVED <==> r.risk == Allow && r.aml == Allow)
    && (r.status == IN_REVIEW
        <==> r.risk != Block && r.aml != Block && (r.risk == Decision.Review || r.aml == Decision.Review))
  }

  ghost predicate RepliesRuled(s: State) {
    && (forall scope | scope in s.db.snapshots :: FirstReply(s.db.snapshots[scope].response))
    && (forall r | r in s.requests && s.requests[r].Replied? && s.requests[r].source != FromPayment ::
          FirstReply(s.requests[r].reply))
  }

  lemma WorkKeepsSnapshots(cfg: Settings, s: State, w: nat, act: WorkerAction)
    requires WorkerEnabled(cfg, s, w, act)
    ensures ApplyWorker(cfg, s, w, act).db.snapshots == s.db.snapshots
    ensures ApplyWorker(cfg, s, w, act).requests == s.requests
  {
  }

  lemma StepKeepsReplies(cfg: Settings, s: State, step: Step)
    requires RepliesRuled(s) && Enabled(cfg, s, step)
    ensures RepliesRuled(Apply(cfg, s, step))
  {
    if step.Work? {
      WorkKeepsSnapshots(cfg, s, step.w, step.work);
    }
  }

  // Every reply of a key that is not built from the payment row has the status its decisions call for: that
  // of the creation, and every replay of its snapshot.
  lemma {:induction false} FirstRepliesFollow(cfg: Settings, states: seq<State>, steps: seq<Step>, k: nat, r: nat)
    requires IsRun(cfg, states, steps) && states[0] == START && k <= |steps|
    ensures RepliesRuled(states[k])
    ensures r in states[k].requests && states[k].requests[r].Replied? && states[k].requests[r].source != FromPayment ==>
      FirstReply(states[k].requests[r].reply)
  {
    if k > 0 {
      FirstRepliesFollow(cfg, states, steps, k - 1, r);
      StepKeepsReplies(cfg, states[k - 1], steps[k - 1]);
    }
  }

  // A reply that is built from the payment row shows the row as it is at that access.
  lemma LaterReplyShowsRow(cfg: Settings, s: State, r: nat, act: RequestAction, id: PaymentId)
    requires RequestEnabled(s, r, act) && (act == PollPayment(Some(id)) || act == ResolvePayment(Some(id)))
    ensures id in s.db.payments && r in s.requests && r in ApplyRequest(s, r, act).requests
    ensures var p := s.db.payments[id];
      && p.scope == s.requests[r].scope
      && ApplyRequest(s, r, act).requests[r]
         == Replied(p.scope, Response(id, p.status, p.risk, p.aml), FromPayment)
  {
  }
}
