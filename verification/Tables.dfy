/**
 * The rows of the payment tables and the effect of every statement on them
 * (migrations/000003_payments.up.sql, internal/database/sqlcgen/payments.sql.go).
 * Ids, order ids, client keys, hashes and clock readings are only compared by the code, so they are numbers.
 */
module Tables {
  import opened Basics
  import opened PaymentStates
  import opened ProviderClient

  type Uuid = nat
  type AppId = nat
  type AccountId = nat
  type OrderId = nat
  type Hash = nat
  type Time = nat

  /** An order of one application. */
  datatype Slot = Slot(app: AppId, order: OrderId)

  /** A client's Idempotency-Key within one application. */
  datatype ClientKey = ClientKey(app: AppId, key: nat)

  /** The validated request payload. */
  datatype CreateInput = CreateInput(amount: int, currency: string, description: string, returnUrl: Option<string>,
                                     metadata: Option<map<string, string>>)

  /** The columns of a payment that are fixed at insertion, besides its place in the order. */
  datatype Details = Details(amount: int, currency: string, description: string, returnUrl: Option<string>,
                             metadata: map<string, string>)

  datatype Payment = Payment(slot: Slot, account: AccountId, attempt: int, details: Details, status: Status,
                             providerId: Option<ProviderId>, checkoutUrl: Option<string>,
                             completedAt: Option<Time>, nextCheckAt: Option<Time>)

  /** The request_body column. */
  datatype StoredBody = StoredBody(amount: int, currency: string, description: string, returnUrl: string,
                                   metadata: Option<map<string, string>>)

  datatype Operation = Operation(payment: Uuid, providerKey: Uuid, hash: Hash, body: StoredBody,
                                 status: OperationStatus, attemptCount: nat, lastError: Option<Option<ErrorCode>>,
                                 startedAt: Option<Time>, completedAt: Option<Time>)

  datatype IdempotencyRequest = IdempotencyRequest(hash: Hash, payment: Option<Uuid>)

  datatype Store = Store(payments: map<Uuid, Payment>, operations: map<Uuid, Operation>,
                         requests: map<ClientKey, IdempotencyRequest>)

  // ---- reads ----

  function GetIdempotencyRequest(db: Store, key: ClientKey): Option<IdempotencyRequest> {
    if key in db.requests then Some(db.requests[key]) else None
  }

  predicate OrderHasSucceededPayment(db: Store, slot: Slot) {
    exists p :: p in db.payments && db.payments[p].slot == slot && db.payments[p].status == Succeeded
  }

  predicate IsMax(s: set<int>, m: int) {
    m in s && forall x :: x in s ==> x <= m
  }

  lemma {:induction false} SetHasMax(s: set<int>)
    requires exists x :: x in s
    ensures exists m :: IsMax(s, m)
  {
    var x :| x in s;
    var rest := s - {x};
    assert forall y :: y in s ==> y == x || y in rest;
    if exists y :: y in rest {
      SetHasMax(rest);
      var m :| IsMax(rest, m);
      assert IsMax(s, if x > m then x else m);
    } else {
      assert IsMax(s, x);
    }
  }

  function AttemptNumbers(db: Store, slot: Slot): set<int> {
    set p | p in db.payments && db.payments[p].slot == slot :: db.payments[p].attempt
  }

  /** COALESCE(MAX(attempt_number), 0) + 1 over the rows of one order. */
  function NextAttemptNumber(db: Store, slot: Slot): (n: int)
    ensures forall p :: p in db.payments && db.payments[p].slot == slot ==> db.payments[p].attempt < n
    ensures (n == 1 && forall p :: p in db.payments ==> db.payments[p].slot != slot)
         || exists p :: p in db.payments && db.payments[p].slot == slot && db.payments[p].attempt == n - 1
  {
    var numbers := AttemptNumbers(db, slot);
    assert forall p :: p in db.payments && db.payments[p].slot == slot ==> db.payments[p].attempt in numbers;
    if forall x :: x !in numbers then 1
    else
      SetHasMax(numbers);
      var m :| IsMax(numbers, m);
      m + 1
  }

  /** GetPaymentForApplication: a row of another application is not found. */
  function GetPaymentForApplication(db: Store, p: Uuid, app: AppId): Option<Payment> {
    if p in db.payments && db.payments[p].slot.app == app then Some(db.payments[p]) else None
  }

  // ---- unique indexes ----

  /** The attempt number is taken, or another attempt of the order is not terminal. */
  predicate NumberTaken(db: Store, row: Payment) {
    exists q :: q in db.payments && db.payments[q].slot == row.slot && db.payments[q].attempt == row.attempt
  }

  predicate ActiveAttempt(db: Store, slot: Slot) {
    exists q :: q in db.payments && db.payments[q].slot == slot && !db.payments[q].status.Terminal()
  }

  /** Inserting a non-terminal row hits one of the two unique indexes on the order. */
  predicate InsertViolates(db: Store, row: Payment) {
    NumberTaken(db, row) || ActiveAttempt(db, row.slot)
  }

  /** Another payment, of any application, already carries this provider id. */
  predicate ProviderIdTaken(db: Store, p: Uuid, id: ProviderId) {
    exists q :: q in db.payments && q != p && db.payments[q].providerId == Some(id)
  }

  // ---- writes ----

  function PutPayment(db: Store, p: Uuid, row: Payment): Store {
    db.(payments := db.payments[p := row])
  }

  function PutOperation(db: Store, o: Uuid, row: Operation): Store {
    db.(operations := db.operations[o := row])
  }

  function MarkPaymentCreating(db: Store, p: Uuid): Store {
    if p in db.payments && db.payments[p].status == Created
    then PutPayment(db, p, db.payments[p].(status := Creating)) else db
  }

  function StartPaymentOperation(db: Store, o: Uuid, now: Time): Store {
    if o in db.operations && db.operations[o].status == OpPending
    then PutOperation(db, o, db.operations[o].(status := OpInProgress, startedAt := Some(now),
                                               attemptCount := db.operations[o].attemptCount + 1))
    else db
  }

  /** No status guard: any row with this id becomes pending. */
  function SetPaymentCreated(db: Store, p: Uuid, id: ProviderId, url: string, nextCheck: Time): Store {
    if p in db.payments
    then PutPayment(db, p, db.payments[p].(status := Pending, providerId := Some(id), checkoutUrl := Some(url),
                                           nextCheckAt := Some(nextCheck)))
    else db
  }

  function SetPaymentCreationUnknown(db: Store, p: Uuid, nextCheck: Time): Store {
    if p in db.payments && db.payments[p].status == Creating
    then PutPayment(db, p, db.payments[p].(status := CreationUnknown, nextCheckAt := Some(nextCheck))) else db
  }

  function SetPaymentCanceled(db: Store, p: Uuid, now: Time): Store {
    if p in db.payments && !db.payments[p].status.Terminal()
    then PutPayment(db, p, db.payments[p].(status := Canceled, completedAt := Some(now), nextCheckAt := None)) else db
  }

  function ApplyProviderStatus(db: Store, p: Uuid, status: Status, now: Time, nextCheck: Time): Store {
    if p in db.payments && !db.payments[p].status.Terminal()
    then PutPayment(db, p, db.payments[p].(status := status, nextCheckAt := Some(nextCheck),
                                           completedAt := if status.Terminal() then Some(now)
                                                          else db.payments[p].completedAt))
    else db
  }

  function CompletePaymentOperation(db: Store, o: Uuid, status: OperationStatus, lastError: Option<ErrorCode>,
                                    now: Time): Store {
    if o in db.operations
    then PutOperation(db, o, db.operations[o].(status := status, completedAt := Some(now),
                                               lastError := Some(lastError)))
    else db
  }

  // ---- new rows ----

  function DetailsOf(input: CreateInput): Details {
    Details(input.amount, input.currency, input.description, input.returnUrl,
            if input.metadata.Some? then input.metadata.value else map[])
  }

  function NewPayment(slot: Slot, account: AccountId, attempt: int, input: CreateInput): Payment {
    Payment(slot, account, attempt, DetailsOf(input), Created, None, None, None, None)
  }

  /** providerRequestBody. */
  function BodyOf(input: CreateInput): StoredBody {
    StoredBody(input.amount, input.currency, input.description,
               if input.returnUrl.Some? then input.returnUrl.value else "", input.metadata)
  }

  function NewOperation(payment: Uuid, key: Uuid, hash: Hash, input: CreateInput): Operation {
    Operation(payment, key, hash, BodyOf(input), OpPending, 0, None, None, None)
  }

  // ---- what is sent ----

  datatype ProviderRequest = ProviderRequest(amount: int, currency: string, description: string, returnUrl: string,
                                             metadata: map<string, string>, key: Uuid)

  /** providerMetadata: our own identifiers are added last, so they win over the client's entries. */
  function ProviderMetadata(metadata: map<string, string>, slot: Slot, p: Uuid): map<string, string> {
    metadata["order_id" := Decimal(slot.order)]["payment_id" := Decimal(p)]
  }

  /** The request callProvider builds from its input and its local copy of the row. */
  function RequestOf(input: CreateInput, row: Payment, p: Uuid, key: Uuid): ProviderRequest {
    ProviderRequest(input.amount, input.currency, input.description,
                    if input.returnUrl.Some? then input.returnUrl.value else "",
                    ProviderMetadata(row.details.metadata, row.slot, p), key)
  }

  /** The request as the committed payment and operation rows give it back. */
  function Rebuilt(row: Payment, op: Operation): ProviderRequest {
    ProviderRequest(op.body.amount, op.body.currency, op.body.description, op.body.returnUrl,
                    ProviderMetadata(row.details.metadata, row.slot, op.payment), op.providerKey)
  }
}
