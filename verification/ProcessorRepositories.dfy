/** The statements of the processor, each one database command of the session's transaction. */
module ProcessorRepositories {
  import opened Contracts
  import opened Store
  import opened Sessions

  class PaymentRepository {
    const session: Session

    constructor (session: Session)
      ensures this.session == session
    {
      this.session := session;
    }

    method GetById(id: PaymentId) returns (found: Option<Payment>)
      ensures found == Lookup(session.working, id)
    {
      found := if id in session.working.payments then Some(session.working.payments[id]) else None;
    }

    // The compare-and-set: only the version is compared.
    method MarkProcessing(id: PaymentId, version: nat) returns (won: bool)
      modifies session`working
      ensures won == WinsSwap(old(session.working), id, version)
      ensures session.working == SwapToProcessing(old(session.working), id, version)
    {
      var rows := session.working.payments;
      won := id in rows && rows[id].version == version;
      if won {
        var row := rows[id].(status := PROCESSING, version := version + 1);
        session.working := session.working.(payments := rows[id := row]);
      }
    }

    method MarkConfirmed(id: PaymentId, version: nat) returns (found: bool)
      modifies session`working
      ensures found == (id in old(session.working).payments)
      ensures session.working == SetFinal(old(session.working), id, CONFIRMED, version + 2, None)
    {
      var rows := session.working.payments;
      found := id in rows;
      if found {
        var row := rows[id].(status := CONFIRMED, version := version + 2, lastError := None);
        session.working := session.working.(payments := rows[id := row]);
      }
    }

    method MarkFailed(id: PaymentId, version: nat, reason: string) returns (found: bool)
      modifies session`working
      ensures found == (id in old(session.working).payments)
      ensures session.working == SetFinal(old(session.working), id, FAILED, version + 2, Some(reason))
    {
      var rows := session.working.payments;
      found := id in rows;
      if found {
        var row := rows[id].(status := FAILED, version := version + 2, lastError := Some(reason));
        session.working := session.working.(payments := rows[id := row]);
      }
    }
  }

  // ----- The due rows in order -----

  ghost predicate Ordered(rows: seq<Fetched>) {
    forall j, k | 0 <= j < k < |rows| :: rows[j].id != rows[k].id && rows[j].row.createdAt <= rows[k].row.createdAt
  }

  // All due rows among the first `n`, and no other rows.
  ghost predicate Collects(t: Tables, fanout: bool, now: Time, n: nat, rows: seq<Fetched>) {
    && n <= |t.events|
    && (forall k | 0 <= k < |rows| ::
          rows[k].id < n && rows[k].row == t.events[rows[k].id] && Due(rows[k].row, fanout, now))
    && (forall i | 0 <= i < n && Due(t.events[i], fanout, now) :: Takes(rows, i))
  }

  lemma FirstRowsAreABatch(t: Tables, fanout: bool, now: Time, limit: nat, rows: seq<Fetched>)
    requires Ordered(rows) && Collects(t, fanout, now, |t.events|, rows)
    ensures IsBatch(t, fanout, now, limit, if |rows| > limit then rows[..limit] else rows)
  {
    var batch := if |rows| > limit then rows[..limit] else rows;
    forall i | 0 <= i < |t.events| && Due(t.events[i], fanout, now) && !Takes(batch, i)
      ensures |batch| == limit && forall k | 0 <= k < |batch| :: batch[k].row.createdAt <= t.events[i].createdAt
    {
      assert Takes(rows, i);
      assert forall j | 0 <= j < |batch| :: batch[j].id != i && batch[j] == rows[j];
    }
  }

  // Places one row behind all that are not younger.
  method Place(rows: seq<Fetched>, f: Fetched) returns (placed: seq<Fetched>)
    requires Ordered(rows) && forall k | 0 <= k < |rows| :: rows[k].id != f.id
    ensures Ordered(placed)
    ensures exists k :: 0 <= k <= |rows| && placed == rows[..k] + [f] + rows[k..]
  {
    var k := |rows|;
    while k > 0 && rows[k - 1].row.createdAt > f.row.createdAt
      invariant 0 <= k <= |rows| && forall j | k <= j < |rows| :: rows[j].row.createdAt > f.row.createdAt
    {
      k := k - 1;
    }
    placed := rows[..k] + [f] + rows[k..];
  }

  lemma PlacingCollects(t: Tables, fanout: bool, now: Time, n: nat, rows: seq<Fetched>, placed: seq<Fetched>, k: nat)
    requires Collects(t, fanout, now, n, rows) && n < |t.events| && Due(t.events[n], fanout, now)
    requires k <= |rows| && placed == rows[..k] + [Fetched(n, t.events[n])] + rows[k..]
    ensures Collects(t, fanout, now, n + 1, placed)
  {
    forall i | 0 <= i < n + 1 && Due(t.events[i], fanout, now) ensures Takes(placed, i) {
      if i == n {
        assert placed[k].id == n;
      } else {
        assert Takes(rows, i);
        var j :| 0 <= j < |rows| && rows[j].id == i;
        assert placed[if j < k then j else j + 1] == rows[j];
      }
    }
  }

  class OutboxRepository {
    const session: Session

    constructor (session: Session)
      ensures this.session == session
    {
      this.session := session;
    }

    // The due rows of the wanted kind, oldest first, at most `limit` of them.
    method FetchPending(fanout: bool, now: Time, limit: nat) returns (batch: seq<Fetched>)
      ensures IsBatch(session.working, fanout, now, limit, batch)
    {
      var t := session.working;
      var rows: seq<Fetched> := [];
      for i := 0 to |t.events|
        invariant Ordered(rows) && Collects(t, fanout, now, i, rows)
      {
        if Due(t.events[i], fanout, now) {
          ghost var before := rows;
          rows := Place(rows, Fetched(i, t.events[i]));
          ghost var k :| 0 <= k <= |before| && rows == before[..k] + [Fetched(i, t.events[i])] + before[k..];
          PlacingCollects(t, fanout, now, i, before, rows, k);
        }
      }
      FirstRowsAreABatch(t, fanout, now, limit, rows);
      batch := if |rows| > limit then rows[..limit] else rows;
    }

    method FetchPendingRequested(now: Time, limit: nat) returns (batch: seq<Fetched>)
      ensures IsBatch(session.working, false, now, limit, batch)
    {
      batch := FetchPending(false, now, limit);
    }

    method FetchPendingFanoutEvents(now: Time, limit: nat) returns (batch: seq<Fetched>)
      ensures IsBatch(session.working, true, now, limit, batch)
    {
      batch := FetchPending(true, now, limit);
    }

    method MarkSent(id: nat)
      modifies session`working
      ensures session.working == Store.MarkSent(old(session.working), id)
    {
      var rows := session.working.events;
      if id < |rows| {
        session.working := session.working.(events := rows[id := rows[id].(status := Sent)]);
      }
    }

    method MarkFailed(id: nat, attempts: nat)
      modifies session`working
      ensures session.working == Store.MarkFailed(old(session.working), id, attempts)
    {
      var rows := session.working.events;
      if id < |rows| {
        var row := rows[id].(status := OutboxStatus.Failed, attempts := attempts);
        session.working := session.working.(events := rows[id := row]);
      }
    }

    method Reschedule(id: nat, attempts: nat, now: Time, delay: nat)
      modifies session`working
      ensures session.working == Store.Reschedule(old(session.working), id, attempts, now + delay)
    {
      var rows := session.working.events;
      if id < |rows| {
        var row := rows[id].(attempts := attempts, nextAttemptAt := now + delay);
        session.working := session.working.(events := rows[id := row]);
      }
    }

    method EmitEvent(id: PaymentId, kind: EventType, at: Stamp)
      modifies session`working
      ensures session.working == Emit(old(session.working), id, kind, at)
    {
      session.AddEvent(Event(id, kind, Pending, 0, at.createdAt, at.now));
    }
  }
}
