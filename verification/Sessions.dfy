/** The shared database and a session on it: statements change what the session sees, a commit makes
    that what everyone sees. */
module Sessions {
  import opened Contracts
  import opened Store

  class Database {
    var tables: Tables   // the committed rows

    constructor (tables: Tables)
      ensures this.tables == tables
    {
      this.tables := tables;
    }
  }

  class Session {
    const db: Database
    var working: Tables   // the committed rows with this transaction's changes
    var broken: bool      // an added row violates a unique constraint

    constructor (db: Database)
      ensures this.db == db && Fresh()
    {
      this.db := db;
      working, broken := db.tables, false;
    }

    // Nothing was done since the transaction began.
    predicate Fresh()
      reads this, db
    {
      working == db.tables && !broken
    }

    // All or nothing. A violated constraint, here or of a table that is not modelled, is an integrity error.
    method Commit(otherViolation: bool) returns (ok: bool)
      modifies db
      ensures ok <==> !broken && !otherViolation
      ensures db.tables == if ok then working else old(db.tables)
    {
      ok := !broken && !otherViolation;
      if ok {
        db.tables := working;
      }
    }

    method Rollback()
      modifies this
      ensures Fresh()
    {
      working, broken := db.tables, false;
    }

    // Waiting for the database, while the other actors leave the committed rows as `tables`: the
    // transaction that starts next sees what they committed.
    method Await(tables: Tables)
      modifies this, db
      ensures db.tables == tables && Fresh()
    {
      db.tables := tables;
      working, broken := tables, false;
    }

    // Adding rows. A row that violates a unique constraint breaks the transaction.
    method AddPayment(id: PaymentId, p: Payment)
      modifies this
      ensures broken <==> old(broken) || id in old(working).payments || PaymentHasScope(old(working), p.scope)
      ensures !broken ==> working == old(working).(payments := old(working).payments[id := p])
    {
      if id in working.payments || PaymentHasScope(working, p.scope) {
        broken := true;
      } else {
        working := working.(payments := working.payments[id := p]);
      }
    }

    method AddEvent(e: Event)
      modifies this`working
      ensures working == old(working).(events := old(working).events + [e])
    {
      working := working.(events := working.events + [e]);
    }

    method AddSnapshot(scope: Scope, snapshot: Snapshot)
      modifies this
      ensures broken <==> old(broken) || scope in old(working).snapshots
      ensures !broken ==> working == old(working).(snapshots := old(working).snapshots[scope := snapshot])
    {
      if scope in working.snapshots {
        broken := true;
      } else {
        working := working.(snapshots := working.snapshots[scope := snapshot]);
      }
    }
  }

  predicate PaymentHasScope(t: Tables, scope: Scope) {
    exists id | id in t.payments :: t.payments[id].scope == scope
  }
}
