/** What each database statement of the two services does to the tables, and what one handled
    outbox event does to them from its first statement to its commit. */
module Store {
  import opened Contracts

  // The clock values one transaction uses: the time read by the process, and the creation time the
  // database stamps on a row it inserts.
  datatype Stamp = Stamp(now: Time, createdAt: Time)

  // A copy of an event row as a worker fetched it.
  datatype Fetched = Fetched(id: nat, row: Event)

  // How the call to the payment provider ended.
  datatype CallResult =
    | Answered(confirmed: bool, partialFailure: bool)
    | ProcessorFailure(message: string)
    | OtherFailure

  const PARTIAL := "Partial failure"
  const UNEXPECTED := "Unexpected processor failure"
  const REJECTED := "manual_review_rejected"

  // ----- Single statements -----

  function Lookup(t: Tables, id: PaymentId): Option<Payment> {
    if id in t.payments then Some(t.payments[id]) else None
  }

  predicate WinsSwap(t: Tables, id: PaymentId, version: nat) {
    id in t.payments && t.payments[id].version == version
  }

  function SwapToProcessing(t: Tables, id: PaymentId, version: nat): Tables {
    if WinsSwap(t, id, version)
    then t.(payments := t.payments[id := t.payments[id].(status := PROCESSING, version := version + 1)])
    else t
  }

  function SetFinal(t: Tables, id: PaymentId, status: PaymentStatus, version: nat, error: Option<string>): Tables {
    if id in t.payments
    then t.(payments := t.payments[id := t.payments[id].(status := status, version := version, lastError := error)])
    else t
  }

  function SetStatus(t: Tables, id: PaymentId, status: PaymentStatus, error: Option<string>): Tables {
    if id in t.payments
    then t.(payments := t.payments[id := t.payments[id].(status := status, lastError := error)])
    else t
  }

  function NewEvent(id: PaymentId, kind: EventType, at: Stamp): Event {
    Event(id, kind, Pending, 0, at.createdAt, at.now)
  }

  function Emit(t: Tables, id: PaymentId, kind: EventType, at: Stamp): Tables {
    t.(events := t.events + [NewEvent(id, kind, at)])
  }

  function MarkSent(t: Tables, i: nat): Tables {
    if i < |t.events| then t.(events := t.events[i := t.events[i].(status := Sent)]) else t
  }

  function MarkFailed(t: Tables, i: nat, attempts: nat): Tables {
    if i < |t.events|
    then t.(events := t.events[i := t.events[i].(status := Failed, attempts := attempts)])
    else t
  }

  function Reschedule(t: Tables, i: nat, attempts: nat, due: Time): Tables {
    if i < |t.events|
    then t.(events := t.events[i := t.events[i].(attempts := attempts, nextAttemptAt := due)])
    else t
  }

  // ----- One handled event, from its first statement to its commit -----

  // The version the finalising UPDATE writes for a payment object read at version `read`.
  function FinalVersion(cfg: Settings, read: nat): nat {
    read + (if cfg.refreshes then 1 else 0) + 2
  }

  function Finalise(cfg: Settings, t: Tables, id: PaymentId, read: nat, status: PaymentStatus,
                    error: Option<string>, at: Stamp): Tables {
    Emit(SetFinal(t, id, status, FinalVersion(cfg, read), error), id,
         if status == CONFIRMED then PaymentConfirmed else PaymentFailed, at)
  }

  // After the compare-and-set was won and the provider call ended with `r`.
  function Settle(cfg: Settings, t: Tables, f: Fetched, read: nat, r: CallResult, delay: nat, at: Stamp): Tables {
    var id := f.row.aggregate;
    var attempts := f.row.attempts + 1;
    match r
    case Answered(confirmed, partialFailure) =>
      if confirmed && !partialFailure
      then MarkSent(Finalise(cfg, t, id, read, CONFIRMED, None, at), f.id)
      else MarkSent(Finalise(cfg, t, id, read, FAILED, Some(PARTIAL), at), f.id)
    case ProcessorFailure(message) =>
      if attempts >= cfg.maxAttempts
      then MarkFailed(Finalise(cfg, t, id, read, FAILED, Some(message), at), f.id, attempts)
      else Reschedule(t, f.id, attempts, at.now + delay)
    case OtherFailure =>
      MarkFailed(Finalise(cfg, t, id, read, FAILED, Some(UNEXPECTED), at), f.id, attempts)
  }

  // `seen` is the payment row as read before the compare-and-set.
  function HandleRequest(cfg: Settings, t: Tables, f: Fetched, seen: Option<Payment>, r: CallResult,
                         delay: nat, at: Stamp): Tables {
    match seen
    case None => MarkFailed(t, f.id, f.row.attempts + 1)
    case Some(p) =>
      if WinsSwap(t, f.row.aggregate, p.version)
      then Settle(cfg, SwapToProcessing(t, f.row.aggregate, p.version), f, p.version, r, delay, at)
      else MarkSent(t, f.id)
  }

  function HandleFanout(cfg: Settings, t: Tables, f: Fetched, published: bool, delay: nat, at: Stamp): Tables {
    var attempts := f.row.attempts + 1;
    if published then MarkSent(t, f.id)
    else if attempts >= cfg.maxAttempts then MarkFailed(t, f.id, attempts)
    else Reschedule(t, f.id, attempts, at.now + delay)
  }

  predicate Finalises(cfg: Settings, f: Fetched, r: CallResult) {
    r.ProcessorFailure? ==> f.row.attempts + 1 >= cfg.maxAttempts
  }

  // ----- The use cases of the API -----

  function StatusFor(risk: Decision, aml: Decision): PaymentStatus {
    if risk == Block || aml == Block then BLOCKED
    else if risk == Review || aml == Review then IN_REVIEW
    else RECEIVED
  }

  datatype Draft = Draft(scope: Scope, id: PaymentId, risk: Decision, aml: Decision)

  function ReplyFor(d: Draft): Response {
    Response(d.id, StatusFor(d.risk, d.aml), d.risk, d.aml)
  }

  function ReplyFromPayment(id: PaymentId, p: Payment): Response {
    Response(id, p.status, p.risk, p.aml)
  }

  ghost predicate ScopeTaken(t: Tables, scope: Scope) {
    || scope in t.snapshots
    || exists id :: id in t.payments && t.payments[id].scope == scope
  }

  function InsertPayment(t: Tables, d: Draft): Tables {
    t.(payments := t.payments[d.id := Payment(d.scope, StatusFor(d.risk, d.aml), d.risk, d.aml, 1, None)])
  }

  function OutboxFor(d: Draft, at: Stamp): seq<Event> {
    match StatusFor(d.risk, d.aml)
    case RECEIVED => [NewEvent(d.id, PaymentRequested, at)]
    case IN_REVIEW => [NewEvent(d.id, PaymentReviewRequired, at)]
    case _ => []
  }

  function InsertOutbox(t: Tables, d: Draft, at: Stamp): Tables {
    t.(events := t.events + OutboxFor(d, at))
  }

  function InsertSnapshot(t: Tables, d: Draft): Tables {
    t.(snapshots := t.snapshots[d.scope := Snapshot(d.id, ReplyFor(d))])
  }

  function Create(t: Tables, d: Draft, at: Stamp): Tables {
    InsertSnapshot(InsertOutbox(InsertPayment(t, d), d, at), d)
  }

  predicate InReview(t: Tables, id: PaymentId) {
    id in t.payments && t.payments[id].status == IN_REVIEW
  }

  function Approve(t: Tables, id: PaymentId, at: Stamp): Tables {
    Emit(SetStatus(t, id, RECEIVED, None), id, PaymentRequested, at)
  }

  function RejectReview(t: Tables, id: PaymentId): Tables {
    SetStatus(t, id, BLOCKED, Some(REJECTED))
  }

  // ----- The queries for the next batch -----

  predicate Due(e: Event, fanout: bool, now: Time) {
    e.status == Pending && IsFanout(e.kind) == fanout && e.nextAttemptAt <= now
  }

  // `batch` is a possible answer of the batch query at time `now`: at most `limit` of the due rows of
  // the wanted kind, oldest first, and no due row left out is older than one taken. Rows created at
  // the same instant may come in any order.
  ghost predicate IsBatch(t: Tables, fanout: bool, now: Time, limit: nat, batch: seq<Fetched>) {
    && |batch| <= limit
    && (forall k | 0 <= k < |batch| ::
          batch[k].id < |t.events| && batch[k].row == t.events[batch[k].id] && Due(batch[k].row, fanout, now))
    && (forall j, k | 0 <= j < k < |batch| ::
          batch[j].id != batch[k].id && batch[j].row.createdAt <= batch[k].row.createdAt)
    && (forall i | 0 <= i < |t.events| && Due(t.events[i], fanout, now) && !Takes(batch, i) ::
          |batch| == limit && forall k | 0 <= k < |batch| :: batch[k].row.createdAt <= t.events[i].createdAt)
  }

  ghost predicate Takes(batch: seq<Fetched>, i: nat) {
    exists k :: 0 <= k < |batch| && batch[k].id == i
  }
}
