/** The create use case, statement by statement. Whenever it waits for the database, other actors may
    have changed the committed rows; what it does is a sequence of enabled steps of the state machine. */
module CreatePayment {
  import opened Contracts
  import opened Store
  import opened Protocol
  import opened Journeys
  import opened Sessions
  import opened ApiRepositories
  import Idempotency = IdempotencyService

  // The phase behind a look for snapshot and payment that found neither.
  function Missed(q: Request): Request
    requires q.Polling? || q.Resolving?
  {
    if q.Resolving? then Refused(q.scope, Conflict(q.scopeWasTaken))
    else if q.round + 1 == POLL_ROUNDS then Refused(q.scope, WaitedTooLong)
    else Polling(q.scope, q.round + 1, false)
  }

  // The reply that goes with the end of a request.
  ghost predicate Ends(last: Request, reply: Option<Response>) {
    if reply.Some? then last.Replied? && last.reply == reply.value else last.Refused?
  }

  class CreatePaymentUseCase {
    const db: Database
    const idempotency: Idempotency.IdempotencyService

    constructor (db: Database, idempotency: Idempotency.IdempotencyService)
      ensures this.db == db && this.idempotency == idempotency
    {
      this.db, this.idempotency := db, idempotency;
    }

    method TryReplay(session: Session, scope: Scope) returns (reply: Option<Response>)
      ensures reply == if scope in session.working.snapshots then Some(session.working.snapshots[scope].response)
                       else None
    {
      var snapshots := new IdempotencyRepository(session);
      var snapshot := snapshots.GetSnapshot(scope);
      if snapshot.None? {
        return None;
      }
      return Some(snapshot.value.response);
    }

    // One look for the snapshot, in any of the three phases that look for it.
    method AskSnapshot(session: Session, scope: Scope, tables: Tables, ghost q: Request)
      returns (reply: Option<Response>, ghost m: RequestMove)
      requires session.db == db && q.scope == scope && (q.Looking? || ((q.Polling? || q.Resolving?) && !q.missed))
      modifies db, session
      ensures db.tables == tables && m.before == tables && m.phase == q && m.after == tables
      ensures if reply.Some? then m.next.Replied? && m.next.reply == reply.value
              else m.next == if q.Looking? then Locking(scope) else q.(missed := true)
    {
      session.Await(tables);
      reply := TryReplay(session, scope);
      ghost var act := if q.Looking? then LookSnapshot else if q.Polling? then PollSnapshot else ResolveSnapshot;
      m := Move(tables, q, act, tables, NextPhase(tables, q, act));
    }

    // One look for the payment, behind a look for the snapshot that found nothing.
    method AskPayment(session: Session, scope: Scope, tables: Tables, ghost q: Request)
      returns (reply: Option<Response>, ghost m: RequestMove)
      requires session.db == db && q.scope == scope && (q.Polling? || q.Resolving?) && q.missed
      modifies db, session
      ensures db.tables == tables && m.before == tables && m.phase == q && m.after == tables
      ensures if reply.Some? then m.next.Replied? && m.next.reply == reply.value else m.next == Missed(q)
    {
      session.Await(tables);
      var payments := new PaymentRepository(session);
      var found := payments.GetByMerchantAndIdempotency(scope);
      ghost var act := if q.Polling? then PollPayment(found) else ResolvePayment(found);
      m := Move(tables, q, act, tables, NextPhase(tables, q, act));
      if found.None? {
        return None, m;
      }
      reply := Some(ReplyFromPayment(found.value, session.working.payments[found.value]));
    }

    // The snapshot of whoever was faster, or else its payment.
    method LookTwice(session: Session, scope: Scope, others: Others, from: nat, ghost q: Request)
      returns (reply: Option<Response>, ghost last: Request, ghost steps: seq<RequestMove>)
      requires session.db == db && q.scope == scope && (q.Polling? || q.Resolving?) && !q.missed
      modifies db, session
      ensures Journey(q, steps, last, others, from) && Leaves(steps, db.tables)
      ensures if reply.Some? then last.Replied? && last.reply == reply.value
              else last == Missed(q) && |steps| == 2
    {
      ghost var look, query;
      reply, look := AskSnapshot(session, scope, others(from), q);
      OneMove(look, others, from);
      steps, last := [look], look.next;
      if reply.Some? {
        return;
      }
      reply, query := AskPayment(session, scope, others(from + 1), look.next);
      OneMove(query, others, from + 1);
      Join(q, [look], look.next, [query], query.next, others, from, from + 1);
      steps, last := [look] + [query], query.next;
    }

    // One more round behind `steps`.
    method PollRound(session: Session, scope: Scope, others: Others, from: nat, ghost first: Request, ghost q: Request,
                     ghost steps: seq<RequestMove>, ghost start: nat)
      returns (reply: Option<Response>, ghost last: Request, ghost longer: seq<RequestMove>)
      requires session.db == db && q.scope == scope && q.Polling? && !q.missed
      requires Journey(first, steps, q, others, start) && from == start + |steps|
      modifies db, session
      ensures Journey(first, longer, last, others, start) && Leaves(longer, db.tables)
      ensures if reply.Some? then last.Replied? && last.reply == reply.value
              else last == Missed(q) && |longer| == |steps| + 2
    {
      ghost var more;
      reply, last, more := LookTwice(session, scope, others, from, q);
      Join(first, steps, q, more, last, others, start, from);
      longer := steps + more;
    }

    // Up to five rounds of looking.
    method ResolvePending(session: Session, scope: Scope, others: Others, from: nat)
      returns (reply: Option<Response>, ghost last: Request, ghost steps: seq<RequestMove>)
      requires session.db == db
      modifies db, session
      ensures Ends(last, reply) && (reply.None? ==> last == Refused(scope, WaitedTooLong))
      ensures Journey(Polling(scope, 0, false), steps, last, others, from) && Leaves(steps, db.tables)
    {
      ghost var first := Polling(scope, 0, false);
      last, steps := first, [];
      for round := 0 to POLL_ROUNDS
        invariant last == if round == POLL_ROUNDS then Refused(scope, WaitedTooLong) else Polling(scope, round, false)
        invariant Journey(first, steps, last, others, from) && |steps| == 2 * round
        invariant round > 0 ==> Leaves(steps, db.tables)
      {
        reply, last, steps := PollRound(session, scope, others, from + 2 * round, first, last, steps, from);
        if reply.Some? {
          return;
        }
      }
      reply := None;
    }

    method PersistOutboxEvents(session: Session, d: Draft, at: Stamp)
      modifies session`working
      ensures session.working == InsertOutbox(old(session.working), d, at)
    {
      var outbox := new OutboxRepository(session);
      var status := StatusFor(d.risk, d.aml);
      if status == RECEIVED {
        outbox.AddEvent(d.id, PaymentRequested, at);
        return;
      }
      if status == IN_REVIEW {
        outbox.AddEvent(d.id, PaymentReviewRequired, at);
        return;
      }
      assert session.working.events + [] == session.working.events;
    }

    // Payment, outbox event and snapshot in one commit; a violated constraint undoes all three.
    method PersistPaymentTransaction(session: Session, d: Draft, otherViolation: bool, at: Stamp) returns (ok: bool)
      requires session.db == db && session.Fresh()
      modifies db, session
      ensures ok <==> !Violates(old(db.tables), d, otherViolation)
      ensures db.tables == if ok then Create(old(db.tables), d, at) else old(db.tables)
      ensures session.Fresh()
    {
      var payments := new PaymentRepository(session);
      var snapshots := new IdempotencyRepository(session);
      payments.CreatePayment(d);
      PersistOutboxEvents(session, d, at);
      snapshots.CreateSnapshot(d.scope, d.id, ReplyFor(d));
      ok := session.Commit(otherViolation);
      if !ok {
        session.Rollback();
      }
    }

    // The commit as a step of the protocol.
    method Write(session: Session, d: Draft, tables: Tables, otherViolation: bool, at: Stamp)
      returns (reply: Option<Response>, ghost m: RequestMove)
      requires session.db == db
      modifies db, session
      ensures m.before == tables && m.phase == Committing(d.scope, d) && m.act == Commit(otherViolation, at)
      ensures m.after == db.tables
      ensures if reply.Some? then m.next.Replied? && m.next.reply == reply.value
              else m.next == Resolving(d.scope, ScopeTaken(tables, d.scope), false)
    {
      session.Await(tables);
      var ok := PersistPaymentTransaction(session, d, otherViolation, at);
      reply := if ok then Some(ReplyFor(d)) else None;
      ghost var next := if ok then Replied(d.scope, ReplyFor(d), Created)
                        else Resolving(d.scope, ScopeTaken(tables, d.scope), false);
      m := Move(tables, Committing(d.scope, d), Commit(otherViolation, at), db.tables, next);
    }

    // One transaction writes everything or nothing; behind a rollback the request looks for the winner.
    method WriteOrResolve(session: Session, d: Draft, others: Others, from: nat, otherViolation: bool, at: Stamp)
      returns (reply: Option<Response>, ghost last: Request, ghost steps: seq<RequestMove>)
      requires session.db == db
      modifies db, session
      ensures Ends(last, reply) && Journey(Committing(d.scope, d), steps, last, others, from)
      ensures Leaves(steps, db.tables) && steps[0].act == Commit(otherViolation, at)
    {
      ghost var m, more;
      reply, m := Write(session, d, others(from), otherViolation, at);
      OneMove(m, others, from);
      steps, last := [m], m.next;
      if reply.Some? {
        return;
      }
      reply, last, more := LookTwice(session, d.scope, others, from + 1, m.next);
      Join(m.phase, [m], m.next, more, last, others, from, from + 1);
      steps := [m] + more;
    }

    // Behind the lock the controls decide.
    method CreateWithControls(session: Session, scope: Scope, others: Others, from: nat, verdict: Option<Draft>,
                              otherViolation: bool, at: Stamp)
      returns (reply: Option<Response>, ghost last: Request, ghost steps: seq<RequestMove>)
      requires session.db == db && (verdict.Some? ==> verdict.value.scope == scope)
      modifies db, session
      ensures Ends(last, reply) && Journey(Deciding(scope), steps, last, others, from) && Leaves(steps, db.tables)
      ensures steps[0].act == Decide(verdict)
      ensures |steps| > 1 ==> steps[1].act == Commit(otherViolation, at)
    {
      session.Await(others(from));
      ghost var next := NextPhase(db.tables, Deciding(scope), Decide(verdict));
      ghost var m: RequestMove := Move(db.tables, Deciding(scope), Decide(verdict), db.tables, next);
      OneMove(m, others, from);
      if verdict.None? {
        return None, next, [m];
      }
      ghost var more;
      reply, last, more := WriteOrResolve(session, verdict.value, others, from + 1, otherViolation, at);
      Join(m.phase, [m], m.next, more, last, others, from, from + 1);
      steps := [m] + more;
    }

    // The lock as a step of the protocol.
    method AcquireLock(session: Session, scope: Scope, tables: Tables, askedAt: Time, answers: bool)
      returns (acquired: bool, ghost m: RequestMove)
      requires session.db == db
      modifies db, session, idempotency
      ensures db.tables == tables && m.before == tables && m.after == tables
      ensures m.phase == Locking(scope) && m.act == TakeLock(acquired)
      ensures m.next == if acquired then Deciding(scope) else Polling(scope, 0, false)
      ensures acquired == Idempotency.Granted(old(idempotency.redis), Idempotency.Asking(scope, askedAt, answers))
    {
      acquired := idempotency.Acquire(scope, askedAt, answers);
      session.Await(tables);
      ghost var next := if acquired then Deciding(scope) else Polling(scope, 0, false);
      m := Move(tables, Locking(scope), TakeLock(acquired), tables, next);
    }

    // Whoever gets the lock creates, and whoever does not waits for the one who did.
    method LockThenCreate(session: Session, scope: Scope, others: Others, from: nat, askedAt: Time, answers: bool,
                          verdict: Option<Draft>, otherViolation: bool, at: Stamp)
      returns (reply: Option<Response>, ghost last: Request, ghost steps: seq<RequestMove>)
      requires session.db == db && (verdict.Some? ==> verdict.value.scope == scope)
      modifies db, session, idempotency
      ensures Ends(last, reply) && Journey(Locking(scope), steps, last, others, from) && Leaves(steps, db.tables)
      ensures var granted := Idempotency.Granted(old(idempotency.redis), Idempotency.Asking(scope, askedAt, answers));
        && steps[0].act == TakeLock(granted)
        && (|steps| > 1 && granted ==> steps[1].act == Decide(verdict))
        && (|steps| > 2 && granted ==> steps[2].act == Commit(otherViolation, at))
    {
      ghost var lock, more;
      var acquired;
      acquired, lock := AcquireLock(session, scope, others(from), askedAt, answers);
      OneMove(lock, others, from);
      if acquired {
        reply, last, more := CreateWithControls(session, scope, others, from + 1, verdict, otherViolation, at);
      } else {
        reply, last, more := ResolvePending(session, scope, others, from + 1);
      }
      Join(lock.phase, [lock], lock.next, more, last, others, from, from + 1);
      steps := [lock] + more;
    }

    // The whole use case. `verdict` is what the controls let through, if they do. Every step is an enabled
    // step of the protocol on the rows as they were then, so only an accepted creation writes.
    method Execute(scope: Scope, others: Others, askedAt: Time, answers: bool, verdict: Option<Draft>,
                   otherViolation: bool, at: Stamp)
      returns (reply: Option<Response>, ghost last: Request, ghost steps: seq<RequestMove>)
      requires verdict.Some? ==> verdict.value.scope == scope
      modifies db, idempotency
      ensures Ends(last, reply) && Journey(Looking(scope), steps, last, others, 0) && Leaves(steps, db.tables)
      ensures var granted := Idempotency.Granted(old(idempotency.redis), Idempotency.Asking(scope, askedAt, answers));
        && (|steps| > 1 ==> steps[1].act == TakeLock(granted))
        && (|steps| > 2 && granted ==> steps[2].act == Decide(verdict))
        && (|steps| > 3 && granted ==> steps[3].act == Commit(otherViolation, at))
    {
      var session := new Session(db);
      ghost var look, more;
      reply, look := AskSnapshot(session, scope, others(0), Looking(scope));
      OneMove(look, others, 0);
      if reply.Some? {
        return reply, look.next, [look];
      }
      reply, last, more := LockThenCreate(session, scope, others, 1, askedAt, answers, verdict, otherViolation, at);
      Join(look.phase, [look], look.next, more, last, others, 0, 1);
      steps := [look] + more;
    }
  }
}
