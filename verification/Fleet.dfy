/** What holds with any number of workers, each with its own and possibly outdated batch. */
module Fleet {
  import opened Contracts
  import opened Store
  import opened Ledger
  import opened Protocol

  // ----- Counting wins -----

  function WinsOf(wins: seq<Win>, id: PaymentId, final: bool): nat {
    if |wins| == 0 then 0
    else WinsOf(wins[..|wins| - 1], id, final) + OneWin(wins[|wins| - 1], id, final)
  }

  function OneWin(w: Win, id: PaymentId, final: bool): nat {
    if w.payment == id && w.final == final then 1 else 0
  }

  lemma WinsAppend(wins: seq<Win>, w: Win, id: PaymentId, final: bool)
    ensures WinsOf(wins + [w], id, final) == WinsOf(wins, id, final) + OneWin(w, id, final)
  {
    assert (wins + [w])[..|wins|] == wins;
  }

  lemma {:induction false} NoWinsYet(wins: seq<Win>, id: PaymentId, final: bool)
    requires forall w | w in wins :: w.payment != id
    ensures WinsOf(wins, id, final) == 0
  {
    if |wins| > 0 {
      assert wins[|wins| - 1] in wins;
      NoWinsYet(wins[..|wins| - 1], id, final);
    }
  }

  function Outcomes(es: seq<Event>, id: PaymentId): nat {
    Count(es, id, WasConfirmed) + Count(es, id, WasFailed)
  }

  // What a finalising win adds to the version.
  function FinalBump(cfg: Settings): nat {
    FinalVersion(cfg, 0)
  }

  // ----- The invariant -----

  ghost predicate Accounted(cfg: Settings, t: Tables, wins: seq<Win>, id: PaymentId) {
    && id in t.payments
    && t.payments[id].version == 1 + WinsOf(wins, id, false) + FinalBump(cfg) * WinsOf(wins, id, true)
    && Outcomes(t.events, id) == WinsOf(wins, id, true)
  }

  // Along the history the versions one payment was won at only increase, and all lie in the past.
  ghost predicate WinsOrdered(t: Tables, wins: seq<Win>) {
    && (forall w | w in wins :: w.payment in t.payments && w.version < t.payments[w.payment].version)
    && (forall i, j | 0 <= i < j < |wins| && wins[i].payment == wins[j].payment :: wins[i].version < wins[j].version)
  }

  ghost predicate EventsOwned(t: Tables) {
    forall i | 0 <= i < |t.events| :: t.events[i].aggregate in t.payments
  }

  ghost predicate FleetInv(cfg: Settings, t: Tables, wins: seq<Win>) {
    && EventsOwned(t)
    && WinsOrdered(t, wins)
    && forall id | id in t.payments :: Accounted(cfg, t, wins, id)
  }

  // ----- What one attempt does, whatever the worker read and fetched -----

  // Only the status, the attempts and the due time of one event may change, and events are appended.
  ghost predicate EventsKept(es: seq<Event>, es': seq<Event>, i: nat, tail: seq<Event>) {
    if i < |es|
    then |es| <= |es'| && es'[i].kind == es[i].kind && es'[i].aggregate == es[i].aggregate
         && es' == es[i := es'[i]] + tail
    else es' == es + tail
  }

  lemma OutcomesKept(es: seq<Event>, es': seq<Event>, i: nat, id: PaymentId)
    requires EventsKept(es, es', i, [])
    ensures Outcomes(es', id) == Outcomes(es, id)
  {
    if i < |es| {
      assert es' == es[i := es'[i]];
      CountReplace(es, i, es'[i], id, WasConfirmed);
      CountReplace(es, i, es'[i], id, WasFailed);
    } else {
      assert es' == es;
    }
  }

  lemma OutcomesGained(es: seq<Event>, es': seq<Event>, i: nat, outcome: Event, id: PaymentId)
    requires EventsKept(es, es', i, [outcome])
    requires outcome.kind == PaymentConfirmed || outcome.kind == PaymentFailed
    ensures Outcomes(es', id) == Outcomes(es, id) + (if outcome.aggregate == id then 1 else 0)
  {
    var mid := if i < |es| then es[i := es'[i]] else es;
    assert mid + [] == mid;
    OutcomesKept(es, mid, i, id);
    CountAppend(mid, outcome, id, WasConfirmed);
    CountAppend(mid, outcome, id, WasFailed);
  }

  // A loser of the compare-and-set rewrites no payment and emits no event.
  lemma LoserEffect(cfg: Settings, t: Tables, f: Fetched, seen: Option<Payment>, r: CallResult, delay: nat, at: Stamp)
    requires seen.None? || !WinsSwap(t, f.row.aggregate, seen.value.version)
    ensures var t' := HandleRequest(cfg, t, f, seen, r, delay, at);
      t'.payments == t.payments && t'.snapshots == t.snapshots && EventsKept(t.events, t'.events, f.id, [])
  {
    var t' := HandleRequest(cfg, t, f, seen, r, delay, at);
    if f.id < |t.events| {
      assert t'.events == t.events[f.id := t'.events[f.id]] + [];
    }
  }

  // A winner rewrites its own payment only.
  lemma WinnerPayments(cfg: Settings, t: Tables, f: Fetched, p: Payment, r: CallResult, delay: nat, at: Stamp)
    requires WinsSwap(t, f.row.aggregate, p.version)
    ensures var t' := HandleRequest(cfg, t, f, Some(p), r, delay, at); var id := f.row.aggregate;
      && t'.snapshots == t.snapshots
      && id in t'.payments && t'.payments == t.payments[id := t'.payments[id]]
      && SameIdentity(t.payments[id], t'.payments[id])
      && t'.payments[id].version == p.version + (if Finalises(cfg, f, r) then FinalBump(cfg) else 1)
  {
    var id := f.row.aggregate;
    var t' := HandleRequest(cfg, t, f, Some(p), r, delay, at);
    assert t'.payments == t.payments[id := t'.payments[id]];
  }

  // The events after a win: `tail` holds the outcome event of a finalising win.
  ghost predicate WinEvents(es: seq<Event>, es': seq<Event>, i: nat, tail: seq<Event>, w: Win) {
    && EventsKept(es, es', i, tail)
    && if w.final
       then |tail| == 1 && tail[0].aggregate == w.payment
            && (tail[0].kind == PaymentConfirmed || tail[0].kind == PaymentFailed)
       else tail == []
  }

  // It appends one outcome event exactly when it finalises.
  lemma WinnerEvents(cfg: Settings, t: Tables, f: Fetched, p: Payment, r: CallResult, delay: nat, at: Stamp)
    returns (tail: seq<Event>)
    requires WinsSwap(t, f.row.aggregate, p.version)
    ensures WinEvents(t.events, HandleRequest(cfg, t, f, Some(p), r, delay, at).events, f.id, tail,
                      Win(f.row.aggregate, p.version, Finalises(cfg, f, r)))
  {
    var es' := HandleRequest(cfg, t, f, Some(p), r, delay, at).events;
    tail := es'[|t.events|..];
    if f.id < |t.events| {
      assert es' == t.events[f.id := es'[f.id]] + tail;
    } else {
      assert es' == t.events + tail;
    }
  }

  // ----- Each kind of step keeps the invariant -----

  lemma WinAddsOutcome(es: seq<Event>, es': seq<Event>, i: nat, tail: seq<Event>, w: Win, id: PaymentId)
    requires WinEvents(es, es', i, tail, w)
    ensures Outcomes(es', id) == Outcomes(es, id) + OneWin(w, id, true)
  {
    if w.final {
      assert tail == [tail[0]];
      OutcomesGained(es, es', i, tail[0], id);
    } else {
      OutcomesKept(es, es', i, id);
    }
  }

  lemma WinKeepsFleet(cfg: Settings, t: Tables, t': Tables, wins: seq<Win>, w: Win, i: nat, tail: seq<Event>)
    requires FleetInv(cfg, t, wins) && w.payment in t.payments && w.version == t.payments[w.payment].version
    requires w.payment in t'.payments && t'.payments == t.payments[w.payment := t'.payments[w.payment]]
    requires t'.payments[w.payment].version == w.version + (if w.final then FinalBump(cfg) else 1)
    requires WinEvents(t.events, t'.events, i, tail, w)
    ensures FleetInv(cfg, t', wins + [w])
  {
    forall id | id in t'.payments ensures Accounted(cfg, t', wins + [w], id) {
      WinAccounted(cfg, t, t', wins, w, i, tail, id);
    }
    WinKeepsOrder(cfg, t, t', wins, w);
    forall j | 0 <= j < |t'.events| ensures t'.events[j].aggregate in t'.payments {
      if j >= |t.events| {
        assert t'.events[j] == tail[j - |t.events|];
      }
    }
  }

  lemma WinAccounted(cfg: Settings, t: Tables, t': Tables, wins: seq<Win>, w: Win, i: nat, tail: seq<Event>,
                     id: PaymentId)
    requires Accounted(cfg, t, wins, id) && w.payment in t.payments && w.version == t.payments[w.payment].version
    requires w.payment in t'.payments && t'.payments == t.payments[w.payment := t'.payments[w.payment]]
    requires t'.payments[w.payment].version == w.version + (if w.final then FinalBump(cfg) else 1)
    requires WinEvents(t.events, t'.events, i, tail, w)
    ensures Accounted(cfg, t', wins + [w], id)
  {
    WinsAppend(wins, w, id, true);
    WinsAppend(wins, w, id, false);
    WinAddsOutcome(t.events, t'.events, i, tail, w, id);
  }

  lemma WinKeepsOrder(cfg: Settings, t: Tables, t': Tables, wins: seq<Win>, w: Win)
    requires WinsOrdered(t, wins) && w.payment in t.payments && w.version == t.payments[w.payment].version
    requires w.payment in t'.payments && t'.payments == t.payments[w.payment := t'.payments[w.payment]]
    requires t'.payments[w.payment].version > w.version
    ensures WinsOrdered(t', wins + [w])
  {
    var all := wins + [w];
    forall x | x in all ensures x.payment in t'.payments && x.version < t'.payments[x.payment].version {
      if x in wins {
        assert x.version < t.payments[x.payment].version;
      }
    }
    forall i, j | 0 <= i < j < |all| && all[i].payment == all[j].payment ensures all[i].version < all[j].version {
      assert wins[i] in wins;
    }
  }

  // Steps that rewrite no version and emit no outcome event.
  lemma QuietKeepsFleet(cfg: Settings, t: Tables, t': Tables, wins: seq<Win>)
    requires FleetInv(cfg, t, wins) && EventsOwned(t')
    requires forall id | id in t.payments :: id in t'.payments && t'.payments[id].version == t.payments[id].version
    requires forall id | id in t'.payments :: id in t.payments && Outcomes(t'.events, id) == Outcomes(t.events, id)
    ensures FleetInv(cfg, t', wins)
  {
    forall id | id in t'.payments ensures Accounted(cfg, t', wins, id) {
      assert Accounted(cfg, t, wins, id);
    }
  }

  lemma CreateKeepsFleet(cfg: Settings, t: Tables, d: Draft, at: Stamp, wins: seq<Win>)
    requires FleetInv(cfg, t, wins) && d.id !in t.payments
    ensures FleetInv(cfg, Create(t, d, at), wins)
  {
    var t' := Create(t, d, at);
    var tail := OutboxFor(d, at);
    assert t'.events == t.events + tail;
    forall id | id in t'.payments ensures Accounted(cfg, t', wins, id) {
      if id == d.id {
        NoEventsYet(t, t.events, id, WasConfirmed);
        NoEventsYet(t, t.events, id, WasFailed);
        NoWinsYet(wins, id, true);
        NoWinsYet(wins, id, false);
      } else {
        assert Accounted(cfg, t, wins, id);
      }
      ApiTailAddsNoOutcome(t.events, tail, id);
    }
  }

  lemma ApiTailAddsNoOutcome(es: seq<Event>, tail: seq<Event>, id: PaymentId)
    requires |tail| <= 1
    requires forall e | e in tail :: e.kind == PaymentRequested || e.kind == PaymentReviewRequired
    ensures Outcomes(es + tail, id) == Outcomes(es, id)
  {
    if |tail| == 1 {
      assert tail == [tail[0]] && tail[0] in tail;
      CountAppend(es, tail[0], id, WasConfirmed);
      CountAppend(es, tail[0], id, WasFailed);
    } else {
      assert es + tail == es;
    }
  }

  lemma ReviewKeepsFleet(cfg: Settings, t: Tables, id: PaymentId, approve: bool, at: Stamp, wins: seq<Win>)
    requires FleetInv(cfg, t, wins) && InReview(t, id)
    ensures FleetInv(cfg, if approve then Approve(t, id, at) else RejectReview(t, id), wins)
  {
    var t' := if approve then Approve(t, id, at) else RejectReview(t, id);
    var tail := if approve then [NewEvent(id, PaymentRequested, at)] else [];
    assert t'.events == t.events + tail;
    forall q | q in t'.payments ensures Outcomes(t'.events, q) == Outcomes(t.events, q) {
      ApiTailAddsNoOutcome(t.events, tail, q);
    }
    QuietKeepsFleet(cfg, t, t', wins);
  }

  lemma AttemptKeepsFleet(cfg: Settings, t: Tables, f: Fetched, seen: Option<Payment>, r: CallResult, delay: nat,
                          at: Stamp, wins: seq<Win>)
    requires FleetInv(cfg, t, wins)
    ensures FleetInv(cfg, HandleRequest(cfg, t, f, seen, r, delay, at),
                     if seen.Some? && WinsSwap(t, f.row.aggregate, seen.value.version)
                     then wins + [Win(f.row.aggregate, seen.value.version, Finalises(cfg, f, r))] else wins)
  {
    var t' := HandleRequest(cfg, t, f, seen, r, delay, at);
    if seen.Some? && WinsSwap(t, f.row.aggregate, seen.value.version) {
      WinnerPayments(cfg, t, f, seen.value, r, delay, at);
      var tail := WinnerEvents(cfg, t, f, seen.value, r, delay, at);
      WinKeepsFleet(cfg, t, t', wins, Win(f.row.aggregate, seen.value.version, Finalises(cfg, f, r)), f.id, tail);
    } else {
      LoserEffect(cfg, t, f, seen, r, delay, at);
      forall q | q in t'.payments ensures Outcomes(t'.events, q) == Outcomes(t.events, q) {
        OutcomesKept(t.events, t'.events, f.id, q);
      }
      QuietKeepsFleet(cfg, t, t', wins);
    }
  }

  lemma PublishKeepsFleet(cfg: Settings, t: Tables, f: Fetched, published: bool, delay: nat, at: Stamp,
                          wins: seq<Win>)
    requires FleetInv(cfg, t, wins)
    ensures FleetInv(cfg, HandleFanout(cfg, t, f, published, delay, at), wins)
  {
    var t' := HandleFanout(cfg, t, f, published, delay, at);
    if f.id < |t.events| {
      assert t'.events == t.events[f.id := t'.events[f.id]] + [];
    } else {
      assert t'.events == t.events + [];
    }
    forall q | q in t'.payments ensures Outcomes(t'.events, q) == Outcomes(t.events, q) {
      OutcomesKept(t.events, t'.events, f.id, q);
    }
    QuietKeepsFleet(cfg, t, t', wins);
  }

  lemma StepKeepsFleet(cfg: Settings, s: State, step: Step)
    requires FleetInv(cfg, s.db, s.history.wins) && Enabled(cfg, s, step)
    ensures FleetInv(cfg, Apply(cfg, s, step).db, Apply(cfg, s, step).history.wins)
  {
    match step
    case Request(r, act) =>
      if act.Commit? && !Violates(s.db, s.requests[r].draft, act.otherViolation) {
        CreateKeepsFleet(cfg, s.db, s.requests[r].draft, act.at, s.history.wins);
      }
    case Review(id, approve, at) =>
      ReviewKeepsFleet(cfg, s.db, id, approve, at, s.history.wins);
    case Work(w, act) =>
      var k := WorkerOf(s, w);
      if act.Attempt? {
        AttemptKeepsFleet(cfg, s.db, k.todo[0], k.seen.row, act.result, act.delay, act.at, s.history.wins);
      } else if act.Publish? {
        PublishKeepsFleet(cfg, s.db, k.todo[0], act.published, act.delay, act.at, s.history.wins);
      }
  }

  // ----- Whole runs, any number of workers -----

  // The version and the outcome events of a payment are accounted for by its wins, and no two wins of
  // one payment ever happen at the same version.
  lemma {:induction false} FleetAccounting(cfg: Settings, states: seq<State>, steps: seq<Step>, k: nat)
    requires IsRun(cfg, states, steps) && states[0] == START && k <= |steps|
    ensures forall id | id in states[k].db.payments ::
      var wins := states[k].history.wins;
      && states[k].db.payments[id].version
         == 1 + WinsOf(wins, id, false) + (if cfg.refreshes then 3 else 2) * WinsOf(wins, id, true)
      && Outcomes(states[k].db.events, id) == WinsOf(wins, id, true)
    ensures WinsOrdered(states[k].db, states[k].history.wins)
    ensures FleetInv(cfg, states[k].db, states[k].history.wins)
  {
    if k > 0 {
      FleetAccounting(cfg, states, steps, k - 1);
      StepKeepsFleet(cfg, states[k - 1], steps[k - 1]);
    }
  }

  // A step that loses the swap leaves every payment as it was and adds no outcome event; a step that
  // wins it raises the version of its payment and touches no other.
  lemma SwapDecides(cfg: Settings, s: State, w: nat, act: WorkerAction, id: PaymentId)
    requires act.Attempt? && WorkerEnabled(cfg, s, w, act) && id in s.db.payments
    ensures id in ApplyWorker(cfg, s, w, act).db.payments
    ensures var s' := ApplyWorker(cfg, s, w, act); var f := WorkerOf(s, w).todo[0];
      if Winning(s, w) && f.row.aggregate == id
      then s'.db.payments[id].version > s.db.payments[id].version
           && s'.history.wins == s.history.wins + [Win(id, s.db.payments[id].version, Finalises(cfg, f, act.result))]
      else s'.db.payments[id] == s.db.payments[id] && Outcomes(s'.db.events, id) == Outcomes(s.db.events, id)
  {
    var k := WorkerOf(s, w);
    var f := k.todo[0];
    var t' := HandleRequest(cfg, s.db, f, k.seen.row, act.result, act.delay, act.at);
    if Winning(s, w) {
      WinnerPayments(cfg, s.db, f, k.seen.row.value, act.result, act.delay, act.at);
      var tail := WinnerEvents(cfg, s.db, f, k.seen.row.value, act.result, act.delay, act.at);
      var w' := Win(f.row.aggregate, k.seen.row.value.version, Finalises(cfg, f, act.result));
      WinAddsOutcome(s.db.events, t'.events, f.id, tail, w', id);
    } else {
      LoserEffect(cfg, s.db, f, k.seen.row, act.result, act.delay, act.at);
      OutcomesKept(s.db.events, t'.events, f.id, id);
    }
  }

  // With several workers a terminal status is not for ever. An attempt rewrites a terminal payment
  // exactly when the row its worker read still has the current version.
  lemma TerminalRewrittenExactlyWhen(cfg: Settings, s: State, w: nat, act: WorkerAction, id: PaymentId)
    requires act.Attempt? && WorkerEnabled(cfg, s, w, act)
    requires id in s.db.payments && Terminal(s.db.payments[id].status)
    ensures id in ApplyWorker(cfg, s, w, act).db.payments
    ensures var k := WorkerOf(s, w);
      ApplyWorker(cfg, s, w, act).db.payments[id] != s.db.payments[id]
      <==> k.todo[0].row.aggregate == id && k.seen.row.Some? && k.seen.row.value.version == s.db.payments[id].version
  {
    SwapDecides(cfg, s, w, act, id);
  }

  // ----- A run with two workers that confirms a payment twice -----

  const AT := Stamp(0, 0)
  const ROW := NewEvent(0, PaymentRequested, AT)
  const BATCH := [Fetched(0, ROW)]
  const CHARGE := Attempt(Answered(true, false), 1, 0, AT)

  function Accepted(scope: Scope): Tables {
    Create(EMPTY, Draft(scope, 0, Allow, Allow), AT)
  }

  lemma AcceptOne(cfg: Settings, scope: Scope) returns (states: seq<State>, steps: seq<Step>)
    ensures IsRun(cfg, states, steps) && states[0] == START
    ensures forall k | 0 <= k < |steps| :: steps[k].Request?
    ensures var s := states[|steps|];
      s.db == Accepted(scope) && s.workers == map[] && s.history.calls == multiset{}
  {
    states, steps := [START], [];
    states, steps := Extend(cfg, states, steps, Request(0, Arrive(scope)));
    states, steps := Extend(cfg, states, steps, Request(0, LookSnapshot));
    states, steps := Extend(cfg, states, steps, Request(0, TakeLock(true)));
    states, steps := Extend(cfg, states, steps, Request(0, Decide(Some(Draft(scope, 0, Allow, Allow)))));
    states, steps := Extend(cfg, states, steps, Request(0, Commit(false, AT)));
  }

  lemma BatchIsDue(cfg: Settings, scope: Scope)
    ensures IsBatch(Accepted(scope), false, 0, cfg.batchSize, BATCH)
  {
    assert BATCH[0].id == 0;
    assert Takes(BATCH, 0);
  }

  // A worker that holds the request and has read the payment confirms it, whatever its status is.
  lemma ConfirmNow(cfg: Settings, s: State, w: nat)
    requires 0 in s.db.payments && WorkerOf(s, w) == Handling(BATCH, Read(Some(s.db.payments[0])))
    requires |s.db.events| > 0 && s.db.events[0].aggregate == 0 && s.db.events[0].kind == PaymentRequested
    ensures Enabled(cfg, s, Work(w, CHARGE))
    ensures var s' := Apply(cfg, s, Work(w, CHARGE));
      && s'.workers == s.workers[w := Handling([], NotRead)]
      && 0 in s'.db.payments && s'.db.payments[0].status == CONFIRMED
      && |s'.db.events| == |s.db.events| + 1
      && s'.db.events[0].aggregate == 0 && s'.db.events[0].kind == PaymentRequested
      && Count(s'.db.events, 0, WasConfirmed) == Count(s.db.events, 0, WasConfirmed) + 1
      && s'.history.calls[0] == s.history.calls[0] + 1
  {
    var s' := Apply(cfg, s, Work(w, CHARGE));
    assert BATCH[1..] == [];
    var e := s.db.events[0].(status := Sent);
    var outcome := NewEvent(0, PaymentConfirmed, AT);
    assert s'.db.events == s.db.events[0 := e] + [outcome];
    CountReplace(s.db.events, 0, e, 0, WasConfirmed);
    CountAppend(s.db.events[0 := e], outcome, 0, WasConfirmed);
  }

  lemma ReadAndConfirm(cfg: Settings, states: seq<State>, steps: seq<Step>, w: nat)
    returns (states': seq<State>, steps': seq<Step>)
    requires IsRun(cfg, states, steps)
    requires var s := states[|steps|];
      WorkerOf(s, w) == Handling(BATCH, NotRead) && 0 in s.db.payments && |s.db.events| > 0
      && s.db.events[0].aggregate == 0 && s.db.events[0].kind == PaymentRequested
    ensures IsRun(cfg, states', steps') && states'[0] == states[0]
    ensures steps' == steps + [Work(w, ReadPayment), Work(w, CHARGE)]
    ensures var s := states[|steps|]; var s' := states'[|steps'|];
      && s'.workers == s.workers[w := Handling([], NotRead)]
      && 0 in s'.db.payments && s'.db.payments[0].status == CONFIRMED
      && |s'.db.events| == |s.db.events| + 1
      && s'.db.events[0].aggregate == 0 && s'.db.events[0].kind == PaymentRequested
      && Count(s'.db.events, 0, WasConfirmed) == Count(s.db.events, 0, WasConfirmed) + 1
      && s'.history.calls[0] == s.history.calls[0] + 1
  {
    var s := states[|steps|];
    states', steps' := Extend(cfg, states, steps, Work(w, ReadPayment));
    var s1 := states'[|steps'|];
    assert WorkerOf(s1, w) == Handling(BATCH, Read(Some(s.db.payments[0])));
    ConfirmNow(cfg, s1, w);
    states', steps' := Extend(cfg, states', steps', Work(w, CHARGE));
    assert s1.workers[w := Handling([], NotRead)] == s.workers[w := Handling([], NotRead)];
  }

  lemma BothFetch(cfg: Settings, scope: Scope) returns (states: seq<State>, steps: seq<Step>)
    ensures IsRun(cfg, states, steps) && states[0] == START
    ensures forall k | 0 <= k < |steps| && steps[k].Work? :: steps[k].w < 2 && steps[k].work.FetchRequests?
    ensures var s := states[|steps|];
      && s.db == Accepted(scope) && s.db.events == [ROW] && s.history.calls == multiset{}
      && s.workers == map[0 := Handling(BATCH, NotRead), 1 := Handling(BATCH, NotRead)]
  {
    states, steps := AcceptOne(cfg, scope);
    BatchIsDue(cfg, scope);
    states, steps := Extend(cfg, states, steps, Work(0, FetchRequests(0, BATCH)));
    states, steps := Extend(cfg, states, steps, Work(1, FetchRequests(0, BATCH)));
  }

  lemma BothHold(cfg: Settings, scope: Scope) returns (states: seq<State>, steps: seq<Step>)
    ensures IsRun(cfg, states, steps) && states[0] == START
    ensures forall k | 0 <= k < |steps| && steps[k].Work? :: steps[k].w < 2 && !steps[k].work.Crash?
    ensures var s := states[|steps|];
      && 0 in s.db.payments && s.db.events == [ROW] && s.history.calls == multiset{}
      && WorkerOf(s, 0) == WorkerOf(s, 1) == Handling(BATCH, NotRead)
  {
    states, steps := BothFetch(cfg, scope);
  }

  // Two workers fetched the same request; the second reads the payment after the first confirmed it.
  // Without a crash the payment is charged twice and gets two outcome events.
  lemma TwoWorkersConfirmTwice(cfg: Settings, scope: Scope) returns (states: seq<State>, steps: seq<Step>)
    ensures IsRun(cfg, states, steps) && states[0] == START
    ensures forall k | 0 <= k < |steps| && steps[k].Work? :: steps[k].w < 2 && !steps[k].work.Crash?
    ensures var s := states[|steps|];
      0 in s.db.payments && Count(s.db.events, 0, WasConfirmed) == 2 && s.history.calls[0] == 2
  {
    states, steps := BothHold(cfg, scope);
    assert Count([ROW], 0, WasConfirmed) == 0;
    states, steps := ReadAndConfirm(cfg, states, steps, 0);
    states, steps := ReadAndConfirm(cfg, states, steps, 1);
  }
}
