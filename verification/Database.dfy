/** The payment tables as an object, one method per statement (internal/database/sqlcgen/payments.sql.go). */
module Database {
  import opened Basics
  import opened PaymentStates
  import opened ProviderClient
  import opened Tables

  class Queries {
    var payments: map<Uuid, Payment>
    var operations: map<Uuid, Operation>
    var requests: map<ClientKey, IdempotencyRequest>

    function Rows(): Store
      reads this
    {
      Store(payments, operations, requests)
    }

    lemma RowsAre()
      ensures Rows() == Store(payments, operations, requests)
    {
    }

    constructor ()
      ensures Rows() == Store(map[], map[], map[])
    {
      payments, operations, requests := map[], map[], map[];
    }

    method GetIdempotencyRequest(key: ClientKey) returns (found: Option<IdempotencyRequest>)
      ensures found == Tables.GetIdempotencyRequest(Rows(), key)
    {
      found := None;
      if key in requests {
        found := Some(requests[key]);
      }
    }

    method OrderHasSucceededPayment(slot: Slot) returns (paid: bool)
      ensures paid <==> Tables.OrderHasSucceededPayment(Rows(), slot)
    {
      paid := exists p :: p in payments && payments[p].slot == slot && payments[p].status == Succeeded;
    }

    /** One past the largest number of the order's rows; 1 when it has none. */
    method NextAttemptNumber(slot: Slot) returns (n: int)
      ensures n == Tables.NextAttemptNumber(Rows(), slot)
      ensures forall p :: p in payments && payments[p].slot == slot ==> payments[p].attempt < n
    {
      n := Tables.NextAttemptNumber(Rows(), slot);
    }

    method GetPaymentForApplication(p: Uuid, app: AppId) returns (found: Option<Payment>)
      ensures found == Tables.GetPaymentForApplication(Rows(), p, app)
    {
      found := None;
      if p in payments && payments[p].slot.app == app {
        found := Some(payments[p]);
      }
    }

    method CountUnfinishedPayments() returns (count: nat)
      ensures count == |set p | p in payments && payments[p].status != Succeeded && payments[p].status != Canceled|
    {
      var open := set p | p in payments && !payments[p].status.Terminal();
      assert open == set p | p in payments && payments[p].status != Succeeded && payments[p].status != Canceled;
      count := |open|;
    }

    method MarkPaymentCreating(p: Uuid)
      modifies this`payments
      ensures Rows() == Tables.MarkPaymentCreating(old(Rows()), p)
    {
      if p in payments && payments[p].status == Created {
        payments := payments[p := payments[p].(status := Creating)];
      }
    }

    method StartPaymentOperation(o: Uuid, now: Time)
      modifies this`operations
      ensures Rows() == Tables.StartPaymentOperation(old(Rows()), o, now)
    {
      if o in operations && operations[o].status == OpPending {
        var row := operations[o];
        operations := operations[o := row.(status := OpInProgress, startedAt := Some(now), attemptCount := row.attemptCount + 1)];
      }
    }

    /** Fails on a provider id that another payment carries. */
    method SetPaymentCreated(p: Uuid, id: ProviderId, url: string, nextCheck: Time) returns (ok: bool)
      modifies this`payments
      ensures ok <==> !ProviderIdTaken(old(Rows()), p, id)
      ensures Rows() == if ok then Tables.SetPaymentCreated(old(Rows()), p, id, url, nextCheck) else old(Rows())
    {
      ok := !exists q :: q in payments && q != p && payments[q].providerId == Some(id);
      if ok && p in payments {
        payments := payments[p := payments[p].(status := Pending, providerId := Some(id), checkoutUrl := Some(url),
                                               nextCheckAt := Some(nextCheck))];
      }
    }

    method SetPaymentCreationUnknown(p: Uuid, nextCheck: Time)
      modifies this`payments
      ensures Rows() == Tables.SetPaymentCreationUnknown(old(Rows()), p, nextCheck)
    {
      if p in payments && payments[p].status == Creating {
        payments := payments[p := payments[p].(status := CreationUnknown, nextCheckAt := Some(nextCheck))];
      }
    }

    method SetPaymentCanceled(p: Uuid, now: Time)
      modifies this`payments
      ensures Rows() == Tables.SetPaymentCanceled(old(Rows()), p, now)
    {
      if p in payments && !payments[p].status.Terminal() {
        payments := payments[p := payments[p].(status := Canceled, completedAt := Some(now), nextCheckAt := None)];
      }
    }

    method ApplyProviderStatus(p: Uuid, status: Status, now: Time, nextCheck: Time)
      modifies this`payments
      ensures Rows() == Tables.ApplyProviderStatus(old(Rows()), p, status, now, nextCheck)
    {
      if p in payments && !payments[p].status.Terminal() {
        var row := payments[p];
        if status.Terminal() {
          row := row.(completedAt := Some(now));
        }
        payments := payments[p := row.(status := status, nextCheckAt := Some(nextCheck))];
      }
    }

    method CompletePaymentOperation(o: Uuid, status: OperationStatus, lastError: Option<ErrorCode>, now: Time)
      modifies this`operations
      ensures Rows() == Tables.CompletePaymentOperation(old(Rows()), o, status, lastError, now)
    {
      if o in operations {
        operations := operations[o := operations[o].(status := status, completedAt := Some(now), lastError := Some(lastError))];
      }
    }

    /** What another connection left behind. */
    method Become(rows: Store)
      modifies this
      ensures Rows() == rows
    {
      payments, operations, requests := rows.payments, rows.operations, rows.requests;
    }
  }

  /** An open transaction: the rows it inserted, which others see only once it commits. Dropping it is a rollback. */
  class Transaction {
    const db: Queries
    var payments: map<Uuid, Payment>
    var operations: map<Uuid, Operation>
    var requests: map<ClientKey, IdempotencyRequest>

    /** The committed rows at this moment, and its own. */
    function Rows(): Store
      reads this, db
    {
      Store(db.payments + payments, db.operations + operations, db.requests + requests)
    }

    predicate Empty()
      reads this
    {
      payments == map[] && operations == map[] && requests == map[]
    }

    lemma SeesCommitted()
      requires Empty()
      ensures Rows() == db.Rows()
    {
      assert db.payments + payments == db.payments;
      assert db.operations + operations == db.operations;
      assert db.requests + requests == db.requests;
    }

    lemma Adds(p: Uuid, row: Payment, o: Uuid, op: Operation, k: ClientKey, r: IdempotencyRequest)
      requires payments == map[p := row] && operations == map[o := op] && requests == map[k := r]
      ensures Rows() == Store(db.payments[p := row], db.operations[o := op], db.requests[k := r])
    {
      assert db.payments + payments == db.payments[p := row];
      assert db.operations + operations == db.operations[o := op];
      assert db.requests + requests == db.requests[k := r];
    }

    constructor (db: Queries)
      ensures this.db == db && Empty()
    {
      this.db := db;
      payments, operations, requests := map[], map[], map[];
    }

    /** Fails on a taken attempt number or an open attempt; nothing is written then. */
    method CreatePayment(p: Uuid, row: Payment) returns (ok: bool)
      modifies this`payments
      ensures ok <==> !InsertViolates(old(Rows()), row)
      ensures payments == if ok then old(payments)[p := row] else old(payments)
    {
      var rows := db.payments + payments;
      var taken := exists q :: q in rows && rows[q].slot == row.slot && rows[q].attempt == row.attempt;
      var active := exists q :: q in rows && rows[q].slot == row.slot && !rows[q].status.Terminal();
      ok := !taken && !active;
      if ok {
        payments := payments[p := row];
      }
    }

    method CreatePaymentOperation(o: Uuid, row: Operation)
      modifies this`operations
      ensures operations == old(operations)[o := row]
    {
      operations := operations[o := row];
    }

    /** Fails on a key that is already there; nothing is written then. */
    method CreateIdempotencyRequest(key: ClientKey, row: IdempotencyRequest) returns (ok: bool)
      modifies this`requests
      ensures ok <==> key !in db.requests && key !in old(requests)
      ensures requests == if ok then old(requests)[key := row] else old(requests)
    {
      ok := key !in db.requests && key !in requests;
      if ok {
        requests := requests[key := row];
      }
    }

    /** Its rows appear all at once. */
    method Commit()
      modifies db
      ensures db.Rows() == old(Rows())
    {
      db.payments, db.operations, db.requests := db.payments + payments, db.operations + operations, db.requests + requests;
    }
  }
}
