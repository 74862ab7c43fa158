/** Approving and rejecting a payment in review. */
module ReviewPayment {
  import opened Contracts
  import opened Store
  import opened Sessions
  import opened ApiRepositories

  datatype ReviewError = NotFound | NotInReview

  datatype Outcome = Done(reply: Response) | Invalid(error: ReviewError)

  function OutcomeFor(t: Tables, id: PaymentId, status: PaymentStatus): Outcome {
    if id !in t.payments then Invalid(NotFound)
    else if t.payments[id].status != IN_REVIEW then Invalid(NotInReview)
    else Done(Response(id, status, t.payments[id].risk, t.payments[id].aml))
  }

  method LoadReviewPayment(payments: PaymentRepository, id: PaymentId)
    returns (found: Option<Payment>, error: ReviewError)
    ensures found.Some? <==> InReview(payments.session.working, id)
    ensures found.Some? ==> found == Lookup(payments.session.working, id)
    ensures found.None? ==> error == if id in payments.session.working.payments then NotInReview else NotFound
  {
    error := NotFound;
    found := payments.GetByPaymentId(id);
    if found.Some? && found.value.status != IN_REVIEW {
      found, error := None, NotInReview;
    }
  }

  class ApproveReviewPaymentUseCase {
    const db: Database

    constructor (db: Database)
      ensures this.db == db
    {
      this.db := db;
    }

    // Either the payment is received again and requested in one transaction, or nothing happens.
    method Execute(id: PaymentId, at: Stamp) returns (outcome: Outcome)
      modifies db
      ensures outcome == OutcomeFor(old(db.tables), id, RECEIVED)
      ensures match outcome
              case Done(reply) =>
                id in old(db.tables).payments && id in db.tables.payments &&
                var before, after := old(db.tables).payments[id], db.tables.payments[id];
                && before.status == IN_REVIEW && after == before.(status := RECEIVED, lastError := None)
                && reply.paymentId == id && reply.status == after.status
                && reply.risk == before.risk && reply.aml == before.aml
                && db.tables.events == old(db.tables).events
                                       + [Event(id, PaymentRequested, Pending, 0, at.createdAt, at.now)]
              case Invalid(error) =>
                && db.tables == old(db.tables) && (error == NotFound <==> id !in old(db.tables).payments)
                && (id in old(db.tables).payments ==> old(db.tables).payments[id].status != IN_REVIEW)
      ensures db.tables == if InReview(old(db.tables), id) then Approve(old(db.tables), id, at) else old(db.tables)
    {
      var session := new Session(db);
      var payments := new PaymentRepository(session);
      var payment, error := LoadReviewPayment(payments, id);
      if payment.None? {
        return Invalid(error);
      }
      var _ := payments.UpdateStatus(id, RECEIVED, None);
      var outbox := new OutboxRepository(session);
      outbox.AddEvent(id, PaymentRequested, at);
      var _ := session.Commit(false);
      return Done(Response(id, RECEIVED, payment.value.risk, payment.value.aml));
    }
  }

  class RejectReviewPaymentUseCase {
    const db: Database

    constructor (db: Database)
      ensures this.db == db
    {
      this.db := db;
    }

    method Execute(id: PaymentId) returns (outcome: Outcome)
      modifies db
      ensures outcome == OutcomeFor(old(db.tables), id, BLOCKED)
      ensures match outcome
              case Done(reply) =>
                id in old(db.tables).payments && id in db.tables.payments &&
                var before, after := old(db.tables).payments[id], db.tables.payments[id];
                && before.status == IN_REVIEW
                && after == before.(status := BLOCKED, lastError := Some("manual_review_rejected"))
                && reply.paymentId == id && reply.status == after.status
                && reply.risk == before.risk && reply.aml == before.aml && db.tables.events == old(db.tables).events
              case Invalid(error) =>
                && db.tables == old(db.tables) && (error == NotFound <==> id !in old(db.tables).payments)
                && (id in old(db.tables).payments ==> old(db.tables).payments[id].status != IN_REVIEW)
      ensures db.tables == if InReview(old(db.tables), id) then RejectReview(old(db.tables), id) else old(db.tables)
    {
      var session := new Session(db);
      var payments := new PaymentRepository(session);
      var payment, error := LoadReviewPayment(payments, id);
      if payment.None? {
        return Invalid(error);
      }
      var _ := payments.UpdateStatus(id, BLOCKED, Some(REJECTED));
      var _ := session.Commit(false);
      return Done(Response(id, BLOCKED, payment.value.risk, payment.value.aml));
    }
  }
}
