/** The invariant that joins payments, outbox events and attempts while one worker runs. */
module Ledger {
  import opened Contracts
  import opened Store

  // ----- Counting the events of one payment -----

  // What an event stands for in the history of its payment.
  datatype Slot = RequestPending | RequestSent | RequestFailed | WasConfirmed | WasFailed | AskedReview

  function SlotOf(e: Event): Slot {
    match e.kind
    case PaymentRequested =>
      if e.status == Pending then RequestPending else if e.status == Sent then RequestSent else RequestFailed
    case PaymentConfirmed => WasConfirmed
    case PaymentFailed => WasFailed
    case PaymentReviewRequired => AskedReview
  }

  function Hit(e: Event, id: PaymentId, s: Slot): nat {
    if e.aggregate == id && SlotOf(e) == s then 1 else 0
  }

  function Count(es: seq<Event>, id: PaymentId, s: Slot): nat {
    if |es| == 0 then 0 else Count(es[..|es| - 1], id, s) + Hit(es[|es| - 1], id, s)
  }

  lemma CountAppend(es: seq<Event>, e: Event, id: PaymentId, s: Slot)
    ensures Count(es + [e], id, s) == Count(es, id, s) + Hit(e, id, s)
  {
    assert (es + [e])[..|es|] == es;
  }

  lemma {:induction false} CountReplace(es: seq<Event>, i: nat, e: Event, id: PaymentId, s: Slot)
    requires i < |es|
    ensures Count(es[i := e], id, s) == Count(es, id, s) - Hit(es[i], id, s) + Hit(e, id, s)
  {
    var n := |es| - 1;
    if i == n {
      assert es[i := e][..n] == es[..n];
    } else {
      assert es[i := e][..n] == es[..n][i := e];
      CountReplace(es[..n], i, e, id, s);
    }
  }

  lemma {:induction false} CountAtLeast(es: seq<Event>, i: nat, id: PaymentId, s: Slot)
    requires i < |es|
    ensures Count(es, id, s) >= Hit(es[i], id, s)
  {
    if i < |es| - 1 {
      CountAtLeast(es[..|es| - 1], i, id, s);
    }
  }

  // An event that keeps its payment and its slot changes no count.
  lemma SameSlotSameCounts(es: seq<Event>, i: nat, e: Event, id: PaymentId)
    requires i < |es| && e.aggregate == es[i].aggregate && SlotOf(e) == SlotOf(es[i])
    ensures forall s: Slot :: Count(es[i := e], id, s) == Count(es, id, s)
  {
    forall s: Slot ensures Count(es[i := e], id, s) == Count(es, id, s) {
      CountReplace(es, i, e, id, s);
    }
  }

  // A count of one leaves room for one index only.
  lemma OnlyOne(es: seq<Event>, i: nat, j: nat, id: PaymentId, s: Slot)
    requires i < |es| && j < |es| && Hit(es[i], id, s) == 1 && Hit(es[j], id, s) == 1
    requires Count(es, id, s) == 1
    ensures i == j
  {
    if i != j {
      var e := es[i].(aggregate := id + 1);
      CountReplace(es, i, e, id, s);
      CountAtLeast(es[i := e], j, id, s);
    }
  }

  // A positive count has an index behind it.
  lemma {:induction false} FindHit(es: seq<Event>, id: PaymentId, s: Slot) returns (i: nat)
    requires Count(es, id, s) > 0
    ensures i < |es| && Hit(es[i], id, s) == 1
  {
    if Hit(es[|es| - 1], id, s) == 1 {
      i := |es| - 1;
    } else {
      i := FindHit(es[..|es| - 1], id, s);
    }
  }

  // ----- The invariant -----

  predicate PendingRequest(e: Event) {
    e.kind == PaymentRequested && e.status == Pending
  }

  // The counts of a payment's request events by status, and of its outcome events by kind.
  predicate Tally(es: seq<Event>, id: PaymentId, pending: nat, sent: nat, dead: nat, confirmed: nat, failed: nat) {
    && Count(es, id, RequestPending) == pending
    && Count(es, id, RequestSent) == sent
    && Count(es, id, RequestFailed) == dead
    && Count(es, id, WasConfirmed) == confirmed
    && Count(es, id, WasFailed) == failed
  }

  // What the status of a payment says about its version and its events.
  predicate Balanced(p: Payment, es: seq<Event>, id: PaymentId) {
    && Count(es, id, AskedReview) <= 1
    && match p.status
       case RECEIVED => p.version == 1 && Tally(es, id, 1, 0, 0, 0, 0)
       case PROCESSING => p.version >= 2 && Tally(es, id, 1, 0, 0, 0, 0)
       case IN_REVIEW => p.version == 1 && Tally(es, id, 0, 0, 0, 0, 0) && Count(es, id, AskedReview) == 1
       case BLOCKED => p.version == 1 && Tally(es, id, 0, 0, 0, 0, 0)
       case CONFIRMED => Tally(es, id, 0, 1, 0, 1, 0)
       case FAILED => Tally(es, id, 0, 1, 0, 0, 1) || Tally(es, id, 0, 0, 1, 0, 1)
       case VALIDATED => false
  }

  // The version a request event implies for its payment. A request that ends as sent does not count its
  // last attempt, one that ends as failed does.
  function RequestVersion(cfg: Settings, e: Event): int {
    match e.status
    case Pending => e.attempts + 1
    case Sent => FinalVersion(cfg, e.attempts + 1)
    case Failed => FinalVersion(cfg, e.attempts)
  }

  predicate EventSound(cfg: Settings, t: Tables, e: Event) {
    && e.aggregate in t.payments
    && (e.status == Pending ==> e.attempts < cfg.maxAttempts)
    && (e.kind == PaymentRequested ==> t.payments[e.aggregate].version == RequestVersion(cfg, e))
  }

  ghost predicate Sound(cfg: Settings, t: Tables) {
    && (forall i | 0 <= i < |t.events| :: EventSound(cfg, t, t.events[i]))
    && (forall id | id in t.payments :: Balanced(t.payments[id], t.events, id))
  }

  // A worker's copy of an event is current and still waiting to be handled.
  predicate Current(t: Tables, f: Fetched, fanout: bool) {
    f.id < |t.events| && t.events[f.id] == f.row && f.row.status == Pending && IsFanout(f.row.kind) == fanout
  }

  // No statement of the services rewrites these columns of a payment.
  predicate SameIdentity(p: Payment, q: Payment) {
    p.scope == q.scope && p.risk == q.risk && p.aml == q.aml
  }

  // At most the payment `id` was inserted or rewritten.
  ghost predicate OnlyPayment(t: Tables, t': Tables, id: PaymentId) {
    && id in t'.payments
    && (forall q | q in t.payments :: q in t'.payments)
    && (forall q | q in t'.payments && q != id :: q in t.payments && t'.payments[q] == t.payments[q])
  }

  // ----- What keeps it -----

  // A payment with a pending request is RECEIVED or PROCESSING and has no other event that counts.
  lemma PendingMeansOpen(cfg: Settings, t: Tables, i: nat)
    requires Sound(cfg, t) && i < |t.events| && PendingRequest(t.events[i])
    ensures t.events[i].aggregate in t.payments
    ensures var p := t.payments[t.events[i].aggregate];
      (p.status == RECEIVED || p.status == PROCESSING) && t.events[i].attempts + 1 == p.version
    ensures Tally(t.events, t.events[i].aggregate, 1, 0, 0, 0, 0)
  {
    var id := t.events[i].aggregate;
    CountAtLeast(t.events, i, id, RequestPending);
    assert EventSound(cfg, t, t.events[i]);
    assert Balanced(t.payments[id], t.events, id);
  }

  // An open payment has no request event besides the pending one.
  lemma OnlyRequest(es: seq<Event>, i: nat, j: nat, id: PaymentId)
    requires i < |es| && j < |es| && PendingRequest(es[i]) && es[i].aggregate == es[j].aggregate == id
    requires es[j].kind == PaymentRequested && Tally(es, id, 1, 0, 0, 0, 0)
    ensures i == j
  {
    CountAtLeast(es, j, id, SlotOf(es[j]));
    if PendingRequest(es[j]) {
      OnlyOne(es, i, j, id, RequestPending);
    }
  }

  // A finished payment has a closed request, and its attempts fix the version of the payment.
  lemma FinishedVersion(cfg: Settings, t: Tables, id: PaymentId) returns (i: nat)
    requires Sound(cfg, t) && id in t.payments
    requires t.payments[id].status == CONFIRMED || t.payments[id].status == FAILED
    ensures i < |t.events| && t.events[i].aggregate == id && t.events[i].kind == PaymentRequested
    ensures t.events[i].status != Pending && t.payments[id].version == RequestVersion(cfg, t.events[i])
  {
    assert Balanced(t.payments[id], t.events, id);
    i := FindHit(t.events, id, if Count(t.events, id, RequestSent) > 0 then RequestSent else RequestFailed);
    assert EventSound(cfg, t, t.events[i]);
  }

  // Replacing one event, and the payment it belongs to, leaves every other payment in balance.
  lemma OthersKeepBalance(cfg: Settings, t: Tables, i: nat, e: Event, tail: seq<Event>, q: PaymentId)
    requires Sound(cfg, t) && i < |t.events| && e.aggregate == t.events[i].aggregate != q && q in t.payments
    requires |tail| <= 1 && forall x | x in tail :: x.aggregate == e.aggregate
    ensures Balanced(t.payments[q], t.events[i := e] + tail, q)
  {
    forall s: Slot ensures Count(t.events[i := e] + tail, q, s) == Count(t.events, q, s) {
      CountReplace(t.events, i, e, q, s);
      if |tail| == 1 {
        assert tail == [tail[0]] && tail[0] in tail;
        CountAppend(t.events[i := e], tail[0], q, s);
      } else {
        assert t.events[i := e] + tail == t.events[i := e];
      }
    }
    assert Balanced(t.payments[q], t.events, q);
  }

  // Handling a pending request leaves a table in order, given the fate of its payment and event.
  lemma RewriteKeepsSound(cfg: Settings, t: Tables, t': Tables, i: nat, tail: seq<Event>)
    requires Sound(cfg, t) && i < |t.events| && PendingRequest(t.events[i]) && i < |t'.events|
    requires var e := t'.events[i]; var id := e.aggregate;
      && id == t.events[i].aggregate && OnlyPayment(t, t', id)
      && t'.events == t.events[i := e] + tail
      && |tail| <= 1 && (forall x | x in tail :: x.aggregate == id && EventSound(cfg, t', x))
      && EventSound(cfg, t', e)
      && Balanced(t'.payments[id], t'.events, id)
    ensures Sound(cfg, t')
  {
    var e := t'.events[i];
    var id := e.aggregate;
    PendingMeansOpen(cfg, t, i);
    forall q | q in t'.payments ensures Balanced(t'.payments[q], t'.events, q) {
      if q != id {
        OthersKeepBalance(cfg, t, i, e, tail, q);
      }
    }
    forall j | 0 <= j < |t'.events| ensures EventSound(cfg, t', t'.events[j]) {
      if j < |t.events| && j != i {
        assert EventSound(cfg, t, t.events[j]);
        if t.events[j].kind == PaymentRequested && t.events[j].aggregate == id {
          OnlyRequest(t.events, i, j, id);
        }
      } else if j >= |t.events| {
        assert t'.events[j] == tail[j - |t.events|];
      }
    }
  }

  // The counts of the payment whose request was finalised.
  lemma CountsAfterFinal(t: Tables, i: nat, e: Event, outcome: Event)
    requires i < |t.events| && PendingRequest(t.events[i])
    requires e.kind == PaymentRequested && e.status != Pending
    requires e.aggregate == outcome.aggregate == t.events[i].aggregate
    requires outcome.kind == PaymentConfirmed || outcome.kind == PaymentFailed
    requires Tally(t.events, e.aggregate, 1, 0, 0, 0, 0)
    ensures var es := t.events[i := e] + [outcome]; var id := e.aggregate;
      && Tally(es, id, 0, Hit(e, id, RequestSent), Hit(e, id, RequestFailed), Hit(outcome, id, WasConfirmed),
               Hit(outcome, id, WasFailed))
      && Count(es, id, AskedReview) == Count(t.events, id, AskedReview)
  {
    var id := e.aggregate;
    forall s: Slot
      ensures Count(t.events[i := e] + [outcome], id, s)
           == Count(t.events, id, s) - Hit(t.events[i], id, s) + Hit(e, id, s) + Hit(outcome, id, s)
    {
      CountReplace(t.events, i, e, id, s);
      CountAppend(t.events[i := e], outcome, id, s);
    }
  }

  // The shape of the tables after a request was handled whose payment was read just before.
  lemma RequestEffect(cfg: Settings, t: Tables, f: Fetched, r: CallResult, delay: nat, at: Stamp)
    returns (e: Event, tail: seq<Event>, p: Payment)
    requires Current(t, f, false) && f.row.aggregate in t.payments
    ensures var id := f.row.aggregate; var was := t.payments[id];
      && HandleRequest(cfg, t, f, Some(was), r, delay, at)
         == t.(payments := t.payments[id := p], events := t.events[f.id := e] + tail)
      && e.aggregate == id && e.kind == PaymentRequested && SameIdentity(was, p)
      && (if Finalises(cfg, f, r)
          then |tail| == 1 && e.status != Pending && p.version == FinalVersion(cfg, was.version)
               && tail[0] == NewEvent(id, if p.status == CONFIRMED then PaymentConfirmed else PaymentFailed, at)
               && (p.status == CONFIRMED || p.status == FAILED)
               && (p.status == CONFIRMED ==> e.status == Sent)
               && e.attempts == f.row.attempts + (if e.status == Sent then 0 else 1)
          else tail == [] && p == was.(status := PROCESSING, version := was.version + 1)
               && e == f.row.(attempts := f.row.attempts + 1, nextAttemptAt := at.now + delay)
               && f.row.attempts + 1 < cfg.maxAttempts)
  {
    var id := f.row.aggregate;
    var t' := HandleRequest(cfg, t, f, Some(t.payments[id]), r, delay, at);
    e, p := t'.events[f.id], t'.payments[id];
    tail := t'.events[|t.events|..];
    assert t'.events == t.events[f.id := e] + tail;
    assert t'.payments == t.payments[id := p];
  }

  lemma FinalKeepsSound(cfg: Settings, t: Tables, i: nat, e: Event, outcome: Event, p: Payment)
    requires Sound(cfg, t) && i < |t.events| && PendingRequest(t.events[i])
    requires e.aggregate == outcome.aggregate == t.events[i].aggregate
    requires e.kind == PaymentRequested && e.status != Pending
    requires outcome.kind == (if p.status == CONFIRMED then PaymentConfirmed else PaymentFailed)
    requires outcome.status == Pending && outcome.attempts == 0
    requires (p.status == CONFIRMED && e.status == Sent) || p.status == FAILED
    requires p.version == RequestVersion(cfg, e)
    ensures Sound(cfg, t.(payments := t.payments[e.aggregate := p], events := t.events[i := e] + [outcome]))
  {
    var id := e.aggregate;
    var t' := t.(payments := t.payments[id := p], events := t.events[i := e] + [outcome]);
    PendingMeansOpen(cfg, t, i);
    assert Balanced(t.payments[id], t.events, id);
    CountsAfterFinal(t, i, e, outcome);
    RewriteKeepsSound(cfg, t, t', i, [outcome]);
  }

  lemma RetryBalance(p: Payment, es: seq<Event>, i: nat, e: Event, id: PaymentId)
    requires i < |es| && e.aggregate == es[i].aggregate && SlotOf(e) == SlotOf(es[i])
    requires Balanced(p, es, id) && (p.status == RECEIVED || p.status == PROCESSING)
    ensures Balanced(p.(status := PROCESSING, version := p.version + 1), es[i := e], id)
  {
    SameSlotSameCounts(es, i, e, id);
  }

  lemma RetryKeepsSound(cfg: Settings, t: Tables, i: nat, due: Time)
    requires Sound(cfg, t) && i < |t.events| && PendingRequest(t.events[i])
    requires t.events[i].attempts + 1 < cfg.maxAttempts && t.events[i].aggregate in t.payments
    ensures var e := t.events[i]; var p := t.payments[e.aggregate];
      Sound(cfg, t.(payments := t.payments[e.aggregate := p.(status := PROCESSING, version := p.version + 1)],
                    events := t.events[i := e.(attempts := e.attempts + 1, nextAttemptAt := due)]))
  {
    var e := t.events[i].(attempts := t.events[i].attempts + 1, nextAttemptAt := due);
    var id := e.aggregate;
    var p := t.payments[id].(status := PROCESSING, version := t.payments[id].version + 1);
    var t' := t.(payments := t.payments[id := p], events := t.events[i := e]);
    PendingMeansOpen(cfg, t, i);
    RetryBalance(t.payments[id], t.events, i, e, id);
    assert t'.events == t.events[i := e] + [];
    RewriteKeepsSound(cfg, t, t', i, []);
  }

  lemma EffectKeepsSound(cfg: Settings, t: Tables, f: Fetched, e: Event, tail: seq<Event>, p: Payment, due: Time)
    requires Sound(cfg, t) && Current(t, f, false) && f.row.aggregate in t.payments
    requires e.aggregate == f.row.aggregate && e.kind == PaymentRequested
    requires
      || (&& |tail| == 1 && e.status != Pending && tail[0].aggregate == e.aggregate
          && tail[0].kind == (if p.status == CONFIRMED then PaymentConfirmed else PaymentFailed)
          && tail[0].status == Pending && tail[0].attempts == 0
          && ((p.status == CONFIRMED && e.status == Sent) || p.status == FAILED)
          && p.version == RequestVersion(cfg, e))
      || (&& tail == [] && f.row.attempts + 1 < cfg.maxAttempts
          && p == t.payments[e.aggregate].(status := PROCESSING, version := t.payments[e.aggregate].version + 1)
          && e == f.row.(attempts := f.row.attempts + 1, nextAttemptAt := due))
    ensures Sound(cfg, t.(payments := t.payments[e.aggregate := p], events := t.events[f.id := e] + tail))
  {
    if tail == [] {
      assert t.events[f.id := e] + tail == t.events[f.id := e];
      RetryKeepsSound(cfg, t, f.id, due);
    } else {
      assert tail == [tail[0]];
      FinalKeepsSound(cfg, t, f.id, e, tail[0], p);
    }
  }

  lemma RequestKeepsSound(cfg: Settings, t: Tables, f: Fetched, r: CallResult, delay: nat, at: Stamp)
    requires Sound(cfg, t) && Current(t, f, false)
    ensures Lookup(t, f.row.aggregate).Some?
    ensures Sound(cfg, HandleRequest(cfg, t, f, Lookup(t, f.row.aggregate), r, delay, at))
  {
    PendingMeansOpen(cfg, t, f.id);
    assert EventSound(cfg, t, f.row);
    var e, tail, p := RequestEffect(cfg, t, f, r, delay, at);
    EffectKeepsSound(cfg, t, f, e, tail, p, at.now + delay);
  }

  lemma FanoutRowKeepsSound(cfg: Settings, t: Tables, i: nat, e: Event)
    requires Sound(cfg, t) && i < |t.events| && IsFanout(t.events[i].kind)
    requires e.aggregate == t.events[i].aggregate && e.kind == t.events[i].kind
    requires e.status == Pending ==> e.attempts < cfg.maxAttempts
    ensures Sound(cfg, t.(events := t.events[i := e]))
  {
    var t' := t.(events := t.events[i := e]);
    assert EventSound(cfg, t, t.events[i]);
    forall q | q in t'.payments ensures Balanced(t'.payments[q], t'.events, q) {
      assert Balanced(t.payments[q], t.events, q);
      SameSlotSameCounts(t.events, i, e, q);
    }
    forall j | 0 <= j < |t'.events| ensures EventSound(cfg, t', t'.events[j]) {
      assert EventSound(cfg, t, t.events[j]);
    }
  }

  lemma FanoutKeepsSound(cfg: Settings, t: Tables, f: Fetched, published: bool, delay: nat, at: Stamp)
    requires Sound(cfg, t) && Current(t, f, true)
    ensures Sound(cfg, HandleFanout(cfg, t, f, published, delay, at))
  {
    FanoutRowKeepsSound(cfg, t, f.id, HandleFanout(cfg, t, f, published, delay, at).events[f.id]);
  }

  lemma {:induction false} NoEventsYet(t: Tables, es: seq<Event>, id: PaymentId, s: Slot)
    requires forall i | 0 <= i < |es| :: es[i].aggregate in t.payments
    requires id !in t.payments
    ensures Count(es, id, s) == 0
  {
    if |es| > 0 {
      NoEventsYet(t, es[..|es| - 1], id, s);
    }
  }

  // Events of one payment do not touch the balance of another.
  lemma {:induction false} ForeignTail(es: seq<Event>, tail: seq<Event>, q: PaymentId, s: Slot)
    requires forall x | x in tail :: x.aggregate != q
    ensures Count(es + tail, q, s) == Count(es, q, s)
  {
    if |tail| == 0 {
      assert es + tail == es;
    } else {
      var n := |tail| - 1;
      assert es + tail == (es + tail[..n]) + [tail[n]];
      assert tail[n] in tail;
      ForeignTail(es, tail[..n], q, s);
      CountAppend(es + tail[..n], tail[n], q, s);
    }
  }

  // Appending events of the payment that is inserted or rewritten.
  lemma AppendKeepsOthers(cfg: Settings, t: Tables, t': Tables, id: PaymentId, tail: seq<Event>)
    requires Sound(cfg, t)
    requires t'.events == t.events + tail && OnlyPayment(t, t', id)
    requires forall x | x in tail :: x.aggregate == id && EventSound(cfg, t', x)
    requires forall i | 0 <= i < |t.events| && t.events[i].aggregate == id :: EventSound(cfg, t', t.events[i])
    requires Balanced(t'.payments[id], t'.events, id)
    ensures Sound(cfg, t')
  {
    forall q | q in t'.payments ensures Balanced(t'.payments[q], t'.events, q) {
      if q != id {
        assert Balanced(t.payments[q], t.events, q);
        forall s: Slot ensures Count(t'.events, q, s) == Count(t.events, q, s) {
          ForeignTail(t.events, tail, q, s);
        }
      }
    }
    forall j | 0 <= j < |t'.events| ensures EventSound(cfg, t', t'.events[j]) {
      if j < |t.events| {
        assert EventSound(cfg, t, t.events[j]);
      } else {
        assert t'.events[j] == tail[j - |t.events|];
      }
    }
  }

  lemma NewPaymentBalance(p: Payment, es: seq<Event>, tail: seq<Event>, id: PaymentId)
    requires forall s: Slot :: Count(es, id, s) == 0
    requires p.version == 1
    requires match p.status
      case RECEIVED => |tail| == 1 && tail[0].aggregate == id && SlotOf(tail[0]) == RequestPending
      case IN_REVIEW => |tail| == 1 && tail[0].aggregate == id && SlotOf(tail[0]) == AskedReview
      case BLOCKED => tail == []
      case _ => false
    ensures Balanced(p, es + tail, id)
  {
    if |tail| == 1 {
      assert tail == [tail[0]];
      forall s: Slot ensures Count(es + tail, id, s) == Hit(tail[0], id, s) {
        CountAppend(es, tail[0], id, s);
      }
    } else {
      assert es + tail == es;
    }
  }

  lemma CreateKeepsSound(cfg: Settings, t: Tables, d: Draft, at: Stamp)
    requires Sound(cfg, t) && d.id !in t.payments
    ensures Sound(cfg, Create(t, d, at))
  {
    forall i | 0 <= i < |t.events| ensures t.events[i].aggregate in t.payments {
      assert EventSound(cfg, t, t.events[i]);
    }
    forall s: Slot ensures Count(t.events, d.id, s) == 0 {
      NoEventsYet(t, t.events, d.id, s);
    }
    var t' := Create(t, d, at);
    NewPaymentBalance(t'.payments[d.id], t.events, OutboxFor(d, at), d.id);
    AppendKeepsOthers(cfg, t, t', d.id, OutboxFor(d, at));
  }

  lemma ReviewKeepsSound(cfg: Settings, t: Tables, id: PaymentId, approve: bool, at: Stamp)
    requires Sound(cfg, t) && InReview(t, id)
    ensures Sound(cfg, if approve then Approve(t, id, at) else RejectReview(t, id))
  {
    var t' := if approve then Approve(t, id, at) else RejectReview(t, id);
    assert Balanced(t.payments[id], t.events, id);
    var tail := if approve then [NewEvent(id, PaymentRequested, at)] else [];
    assert t'.events == t.events + tail;
    if approve {
      forall s: Slot ensures Count(t'.events, id, s) == Count(t.events, id, s) + Hit(tail[0], id, s) {
        CountAppend(t.events, tail[0], id, s);
      }
    }
    forall j | 0 <= j < |t.events| && t.events[j].aggregate == id ensures EventSound(cfg, t', t.events[j]) {
      assert EventSound(cfg, t, t.events[j]);
      if PendingRequest(t.events[j]) {
        PendingMeansOpen(cfg, t, j);
      }
    }
    AppendKeepsOthers(cfg, t, t', id, tail);
  }
}
