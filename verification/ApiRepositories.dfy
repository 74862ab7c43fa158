/** The statements of the API, each one query or one added row of the session's transaction. */
module ApiRepositories {
  import opened Contracts
  import opened Store
  import opened Protocol
  import opened Sessions

  class PaymentRepository {
    const session: Session

    constructor (session: Session)
      ensures this.session == session
    {
      this.session := session;
    }

    method GetByPaymentId(id: PaymentId) returns (found: Option<Payment>)
      ensures found == Lookup(session.working, id)
    {
      found := if id in session.working.payments then Some(session.working.payments[id]) else None;
    }

    method GetByMerchantAndIdempotency(scope: Scope) returns (found: Option<PaymentId>)
      ensures FoundBy(session.working, scope, found)
    {
      var rows := session.working.payments;
      if PaymentHasScope(session.working, scope) {
        var id :| id in rows && rows[id].scope == scope;
        return Some(id);
      }
      return None;
    }

    method CreatePayment(d: Draft)
      modifies session
      ensures session.broken <==>
        old(session.broken) || d.id in old(session.working).payments || PaymentHasScope(old(session.working), d.scope)
      ensures !session.broken ==> session.working == InsertPayment(old(session.working), d)
      ensures !session.broken ==>
        && d.id in session.working.payments
        && var p := session.working.payments[d.id];
           && p.scope == d.scope && p.risk == d.risk && p.aml == d.aml && p.version == 1 && p.lastError == None
           && p.status == if d.risk == Decision.Block || d.aml == Decision.Block then BLOCKED
                          else if d.risk == Decision.Allow && d.aml == Decision.Allow then RECEIVED else IN_REVIEW
    {
      session.AddPayment(d.id, Payment(d.scope, StatusFor(d.risk, d.aml), d.risk, d.aml, 1, None));
    }

    // Unconditional: the old status is not looked at.
    method UpdateStatus(id: PaymentId, status: PaymentStatus, lastError: Option<string>) returns (found: bool)
      modifies session`working
      ensures found == (id in old(session.working).payments)
      ensures session.working == SetStatus(old(session.working), id, status, lastError)
    {
      var rows := session.working.payments;
      found := id in rows;
      if found {
        var row := rows[id].(status := status, lastError := lastError);
        session.working := session.working.(payments := rows[id := row]);
      }
    }
  }

  class OutboxRepository {
    const session: Session

    constructor (session: Session)
      ensures this.session == session
    {
      this.session := session;
    }

    method AddEvent(id: PaymentId, kind: EventType, at: Stamp)
      modifies session`working
      ensures session.working == Emit(old(session.working), id, kind, at)
    {
      session.AddEvent(Event(id, kind, Pending, 0, at.createdAt, at.now));
    }
  }

  class IdempotencyRepository {
    const session: Session

    constructor (session: Session)
      ensures this.session == session
    {
      this.session := session;
    }

    method GetSnapshot(scope: Scope) returns (found: Option<Snapshot>)
      ensures found == if scope in session.working.snapshots then Some(session.working.snapshots[scope]) else None
    {
      found := if scope in session.working.snapshots then Some(session.working.snapshots[scope]) else None;
    }

    method CreateSnapshot(scope: Scope, id: PaymentId, response: Response)
      modifies session
      ensures session.broken <==> old(session.broken) || scope in old(session.working).snapshots
      ensures !session.broken ==>
        session.working
        == old(session.working).(snapshots := old(session.working).snapshots[scope := Snapshot(id, response)])
    {
      session.AddSnapshot(scope, Snapshot(id, response));
    }
  }
}
