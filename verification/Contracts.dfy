/** The rows of the three tables the two services share, and the settings of the worker. */
module Contracts {

  datatype Option<+T> = None | Some(value: T)

  type PaymentId = nat

  // Times are integer ticks of one clock.
  type Time = int

  // A client's idempotency key only has a meaning together with the merchant that sent it.
  datatype Scope = Scope(merchant: string, key: string)

  datatype PaymentStatus = RECEIVED | VALIDATED | IN_REVIEW | PROCESSING | CONFIRMED | FAILED | BLOCKED

  // The outcome of the risk score and of the AML rules (two enumerations with the same members).
  datatype Decision = Allow | Review | Block

  datatype EventType = PaymentRequested | PaymentConfirmed | PaymentFailed | PaymentReviewRequired

  datatype OutboxStatus = Pending | Sent | Failed

  datatype Payment = Payment(
    scope: Scope,
    status: PaymentStatus,
    risk: Decision,
    aml: Decision,
    version: nat,
    lastError: Option<string>)

  datatype Event = Event(
    aggregate: PaymentId,
    kind: EventType,
    status: OutboxStatus,
    attempts: nat,
    createdAt: Time,
    nextAttemptAt: Time)

  // The body of an accepted reply.
  datatype Response = Response(paymentId: PaymentId, status: PaymentStatus, risk: Decision, aml: Decision)

  datatype Snapshot = Snapshot(paymentId: PaymentId, response: Response)

  // The committed rows. An outbox event is identified by its place in the insertion order.
  datatype Tables = Tables(
    payments: map<PaymentId, Payment>,
    events: seq<Event>,
    snapshots: map<Scope, Snapshot>)

  const EMPTY := Tables(map[], [], map[])

  // `refreshes` says whether the database session rewrites a loaded payment object after an UPDATE
  // statement touched its row; the finalising UPDATE then starts from the bumped version. `publishes`
  // says whether an event bus is configured.
  datatype RawSettings = RawSettings(maxAttempts: nat, batchSize: nat, refreshes: bool, publishes: bool)

  type Settings = c: RawSettings | 1 <= c.maxAttempts && 1 <= c.batchSize
    witness RawSettings(5, 50, false, true)

  predicate Terminal(s: PaymentStatus) {
    s == CONFIRMED || s == FAILED || s == BLOCKED
  }

  predicate IsFanout(k: EventType) {
    k != PaymentRequested
  }
}
