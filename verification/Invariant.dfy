/** What holds between any two steps, of the tables and of every request in flight. */
module Invariant {
  import opened Basics
  import opened PaymentStates
  import opened Tables
  import opened Protocol

  ghost predicate SameIdentity(a: Payment, b: Payment) {
    a.slot == b.slot && a.account == b.account && a.attempt == b.attempt && a.details == b.details
  }

  ghost predicate SameOperation(a: Operation, b: Operation) {
    a.payment == b.payment && a.providerKey == b.providerKey && a.hash == b.hash && a.body == b.body
  }

  /** A payment row on its own. */
  ghost predicate RowOK(row: Payment) {
    && (row.providerId.Some? <==> row.checkoutUrl.Some?)
    && (row.completedAt.Some? <==> row.status.Terminal())
    && (row.status == Pending || row.status == Succeeded ==> row.providerId.Some?)
    && (row.providerId.Some? ==> row.status == Pending || row.status == Succeeded || row.status == Canceled)
  }

  /** A payment row beside its operation row and the number of calls made for it. */
  ghost predicate Coupled(row: Payment, op: Operation, calls: nat) {
    && (row.status == Created ==> op.status == OpPending)
    && (op.status == OpPending ==> row.status == Created || row.status == Creating)
    && (op.status == OpSucceeded ==> row.providerId.Some?)
    && (op.status == OpFailed ==> row.status == Canceled && row.providerId.None?)
    && (op.status == OpUnknown ==> row.status == CreationUnknown)
    && op.status != OpNeedsReview
    && op.attemptCount == (if op.status == OpPending then 0 else 1)
    && calls <= op.attemptCount
  }

  /** Terminal states that came from the provider were read from it under this row's provider id. */
  ghost predicate Confirmed(row: Payment, readings: set<Reading>) {
    && (row.status == Succeeded ==> row.providerId.Some? && Reading(row.providerId.value, Succeeded) in readings)
    && (row.status == Canceled && row.providerId.Some? ==> Reading(row.providerId.value, Canceled) in readings)
  }

  ghost predicate PaymentOK(w: World, p: Uuid)
    requires p in w.db.payments
  {
    var row := w.db.payments[p];
    && p in w.issued && w.issued[p] == p
    && p in w.opOf && w.opOf[p] in w.db.operations && w.db.operations[w.opOf[p]].payment == p
    && RowOK(row)
    && Coupled(row, w.db.operations[w.opOf[p]], |CallsOf(w, w.opOf[p])|)
    && Confirmed(row, w.readings)
    && row.slot in w.attempts && 1 <= row.attempt <= |w.attempts[row.slot]|
    && w.attempts[row.slot][row.attempt - 1] == p
  }

  ghost predicate OperationOK(w: World, o: Uuid)
    requires o in w.db.operations
  {
    var op := w.db.operations[o];
    && o in w.issued && w.issued[o] == op.payment
    && op.providerKey in w.issued && w.issued[op.providerKey] == op.payment
    && op.payment in w.db.payments && op.payment in w.opOf && w.opOf[op.payment] == o
    && forall i :: 0 <= i < |CallsOf(w, o)| ==> CallsOf(w, o)[i] == Rebuilt(w.db.payments[op.payment], op)
  }

  /** The attempts of an order are numbered 1, 2, ... in insertion order, and all but the last are terminal. */
  ghost predicate AttemptsOK(w: World, slot: Slot)
    requires slot in w.attempts
  {
    var list := w.attempts[slot];
    && |list| >= 1
    && forall i :: 0 <= i < |list| ==>
         && list[i] in w.db.payments && w.db.payments[list[i]].slot == slot && w.db.payments[list[i]].attempt == i + 1
         && (i < |list| - 1 ==> w.db.payments[list[i]].status.Terminal())
  }

  ghost predicate RequestOK(w: World, k: ClientKey)
    requires k in w.db.requests
  {
    var r := w.db.requests[k];
    r.payment.Some? && r.payment.value in w.db.payments && w.db.payments[r.payment.value].slot.app == k.app
  }

  ghost predicate ProviderIdsUnique(db: Store) {
    forall p, q :: p in db.payments && q in db.payments && p != q ==>
      db.payments[p].providerId.None? || db.payments[p].providerId != db.payments[q].providerId
  }

  ghost predicate WorldOK(w: World) {
    && (forall p :: p in w.db.payments ==> PaymentOK(w, p))
    && (forall o :: o in w.db.operations ==> OperationOK(w, o))
    && (forall slot :: slot in w.attempts ==> AttemptsOK(w, slot))
    && (forall k :: k in w.db.requests ==> RequestOK(w, k))
    && (forall p :: p in w.opOf ==> p in w.db.payments)
    && (forall o :: o in w.calls ==> o in w.db.operations)
    && ProviderIdsUnique(w.db)
  }

  /** The new payment row that the next attempt of an order would get. */
  ghost predicate IsNewRow(row: Payment, req: CreateRequest, attempt: int) {
    row == NewPayment(req.slot, row.account, attempt, req.input)
  }

  ghost predicate IsNewOperation(op: Operation, req: CreateRequest, l: Local) {
    op == NewOperation(l.payment, l.providerKey, req.hash, req.input)
  }

  /** No attempt of the order is open. */
  ghost predicate Settled(db: Store, slot: Slot) {
    forall q :: q in db.payments && db.payments[q].slot == slot ==> db.payments[q].status.Terminal()
  }

  /** Once the order's lock is held and its paid check has passed, a success leaves no open attempt. */
  ghost predicate PaidOnlyIfSettled(db: Store, slot: Slot) {
    OrderHasSucceededPayment(db, slot) ==> Settled(db, slot)
  }

  /** A transaction that has inserted its payment row, not yet visible to others. */
  ghost predicate Pending1(w: World, req: CreateRequest, p: Uuid, row: Payment) {
    && p in w.issued && w.issued[p] == p && p !in w.db.payments
    && IsNewRow(row, req, |AttemptsOf(w, req.slot)| + 1)
    && Settled(w.db, req.slot)
  }

  /** ... and its operation row. */
  ghost predicate Pending2(w: World, req: CreateRequest, l: Local, op: Operation) {
    && Pending1(w, req, l.payment, l.row)
    && l.operation in w.issued && w.issued[l.operation] == l.payment && l.operation !in w.db.operations
    && l.providerKey in w.issued && w.issued[l.providerKey] == l.payment
    && IsNewOperation(op, req, l)
  }

  /** A create request that owns the rows it committed. */
  ghost predicate Owns(w: World, req: CreateRequest, l: Local) {
    && l.payment in w.db.payments && l.payment in w.opOf && w.opOf[l.payment] == l.operation
    && l.operation in w.db.operations
    && IsNewRow(l.row, req, l.row.attempt) && SameIdentity(l.row, w.db.payments[l.payment])
    && w.db.operations[l.operation].payment == l.payment
    && w.db.operations[l.operation].providerKey == l.providerKey
    && w.db.operations[l.operation].body == BodyOf(req.input)
    && req.Key() in w.db.requests && w.db.requests[req.Key()] == IdempotencyRequest(req.hash, Some(l.payment))
  }

  /** The program counter of the owner fixes the status of its rows and the number of calls made. */
  ghost predicate OwnsAt(w: World, req: CreateRequest, l: Local, status: Status, op: OperationStatus, calls: nat) {
    && Owns(w, req, l)
    && w.db.payments[l.payment].status == status && w.db.payments[l.payment].providerId.None?
    && w.db.operations[l.operation].status == op
    && |CallsOf(w, l.operation)| == calls
  }

  /** The same, when the provider answered: the request was sent or found to be unsendable. */
  ghost predicate OwnsAnswered(w: World, req: CreateRequest, l: Local) {
    OwnsAt(w, req, l, Creating, OpInProgress, 0) || OwnsAt(w, req, l, Creating, OpInProgress, 1)
  }

  /** Failures the code provides for and that no run produces. */
  ghost predicate Impossible(f: Failure) {
    f.IllegalTransition? || f.NotFound?
  }

  /** A response that carries a payment carries the one bound to the client's key, and is not hollow. */
  ghost predicate ResponseOK(w: World, req: CreateRequest, response: CreateResponse) {
    if response.Failed? then !Impossible(response.failure)
    else
      && req.Key() in w.db.requests
      && w.db.requests[req.Key()] == IdempotencyRequest(req.hash, Some(response.payment))
      && response.payment in w.db.payments && SameIdentity(response.row, w.db.payments[response.payment])
      && (response.pending <==> !response.row.status.Terminal() && response.row.checkoutUrl.None?)
  }

  /** A snapshot taken by a get request: the row had a provider id and was pending. */
  ghost predicate SnapshotOK(w: World, app: AppId, p: Uuid, row: Payment) {
    && p in w.db.payments && SameIdentity(row, w.db.payments[p]) && row.slot.app == app
    && row.status == Pending && row.providerId.Some? && row.checkoutUrl.Some?
    && w.db.payments[p].providerId == row.providerId
  }

  ghost predicate ThreadOK(w: World, th: Thread) {
    match th
    case TxCheckPaid(req, _) => true
    case TxCheckKey(req, _) => PaidOnlyIfSettled(w.db, req.slot)
    case TxNumber(req, _, seen) =>
      && PaidOnlyIfSettled(w.db, req.slot) && PaidOnlyIfSettled(seen, req.slot)
      && req.Key() !in seen.requests && (Settled(seen, req.slot) ==> Settled(w.db, req.slot))
    case TxInsertPayment(req, _, seen, attempt) =>
      && PaidOnlyIfSettled(w.db, req.slot) && PaidOnlyIfSettled(seen, req.slot)
      && req.Key() !in seen.requests && (Settled(seen, req.slot) ==> Settled(w.db, req.slot))
      && attempt == |AttemptsOf(w, req.slot)| + 1
    case TxInsertOperation(req, p, row) => Pending1(w, req, p, row)
    case TxInsertKey(req, l, op) => Pending2(w, req, l, op)
    case TxCommit(req, l, op) => Pending2(w, req, l, op) && req.Key() !in w.db.requests
    case RaceReread(req) => req.Key() in w.db.requests
    case ReplayRead(req, p) =>
      req.Key() in w.db.requests && w.db.requests[req.Key()] == IdempotencyRequest(req.hash, Some(p))
    case Credentials(req, l) => OwnsAt(w, req, l, Created, OpPending, 0)
    case MarkCreating(req, l) => OwnsAt(w, req, l, Created, OpPending, 0)
    case StartOperation(req, l) => OwnsAt(w, req, l, Creating, OpPending, 0)
    case CallProvider(req, l) => OwnsAt(w, req, l, Creating, OpInProgress, 0)
    case AwaitAnswer(req, l) => OwnsAt(w, req, l, Creating, OpInProgress, 1)
    case PersistCreated(req, l, _, _) => OwnsAt(w, req, l, Creating, OpInProgress, 1)
    case PersistUnknown(req, l, _) => OwnsAt(w, req, l, Creating, OpInProgress, 1)
    case PersistCanceled(req, l, _) => OwnsAnswered(w, req, l)
    case CompleteCreated(req, l) =>
      && Owns(w, req, l) && w.db.payments[l.payment].providerId.Some?
      && w.db.operations[l.operation].status == OpInProgress
    case CompleteUnknown(req, l, _) => OwnsAt(w, req, l, CreationUnknown, OpInProgress, 1)
    case CompleteCanceled(req, l, _) =>
      OwnsAt(w, req, l, Canceled, OpInProgress, 0) || OwnsAt(w, req, l, Canceled, OpInProgress, 1)
    case RereadCreated(req, l) => Owns(w, req, l) && w.db.payments[l.payment].providerId.Some?
    case RereadUnknown(req, l) =>
      && Owns(w, req, l) && w.db.payments[l.payment].status == CreationUnknown
    case CreateDone(req, response) => ResponseOK(w, req, response)
    case GetRefresh(app, p, row) => SnapshotOK(w, app, p, row)
    case GetApply(app, p, row, next) =>
      && SnapshotOK(w, app, p, row) && (next == Succeeded || next == Canceled)
      && Reading(row.providerId.value, next) in w.readings
    case GetReread(app, p, row) => SnapshotOK(w, app, p, row)
    case GetDone(app, p, found) =>
      found.Some? ==> p in w.db.payments && SameIdentity(found.value, w.db.payments[p]) && found.value.slot.app == app
    case _ => true
  }

  /** What the program counter of a calling request says about its rows. */
  function CallingStatus(th: Thread): Status
    requires Calling(th)
  {
    if th.Credentials? || th.MarkCreating? then Created else Creating
  }

  function CallingOperation(th: Thread): OperationStatus
    requires Calling(th)
  {
    if th.CallProvider? || th.AwaitAnswer? then OpInProgress else OpPending
  }

  lemma CallingMeans(w: World, th: Thread)
    requires Calling(th)
    ensures ThreadOK(w, th)
            <==> OwnsAt(w, th.req, th.local, CallingStatus(th), CallingOperation(th), if th.AwaitAnswer? then 1 else 0)
  {
    hide OwnsAt;
  }

  lemma CallingClaims(th: Thread)
    requires Calling(th) || Settling(th)
    ensures ClaimsOf(th) == Claims(Some(th.local.payment), None, None)
  {
  }

  /** Distinct requests hold different things. */
  ghost predicate AllApart(s: State) {
    forall t, u :: t in s.threads && u in s.threads && t != u ==> Apart(ClaimsOf(s.threads[t]), ClaimsOf(s.threads[u]))
  }

  ghost predicate Inv(s: State) {
    && WorldOK(s.world)
    && (forall t :: t in s.threads ==> ThreadOK(s.world, s.threads[t]))
    && AllApart(s)
  }

  // ---- what one step may do to the rows others rely on ----

  /** A refresh settling a pending payment: the one change that needs no ownership. */
  ghost predicate Settles(a: Payment, b: Payment) {
    && a.status == Pending && b.status.Terminal() && SameIdentity(a, b)
    && b.providerId == a.providerId && b.checkoutUrl == a.checkoutUrl && b.completedAt.Some?
  }

  /** What the owner of a row may do to it before it has a provider id. */
  ghost predicate OwnerChange(a: Payment, b: Payment) {
    && a.providerId.None? && SameIdentity(a, b) && CodeEdge(a.status, b.status)
    && (b.completedAt.Some? <==> b.status.Terminal())
  }

  ghost predicate RowChange(a: Payment, b: Payment, owner: bool) {
    b == a || Settles(a, b) || (owner && OwnerChange(a, b))
  }

  ghost predicate TouchesPayments(w: World, w': World, c: Claims) {
    && (forall p :: p in w.db.payments ==>
          p in w'.db.payments && RowChange(w.db.payments[p], w'.db.payments[p], c.payment == Some(p)))
    && (forall p :: p in w'.db.payments && p !in w.db.payments ==>
          c.payment == Some(p) && c.slot == Some(w'.db.payments[p].slot) && w'.db.payments[p].status == Created)
  }

  ghost predicate TouchesOperations(w: World, w': World, c: Claims) {
    && (forall o :: o in w.db.operations ==>
          && o in w'.db.operations && SameOperation(w.db.operations[o], w'.db.operations[o])
          && (c.payment != Some(w.db.operations[o].payment) ==>
                w'.db.operations[o] == w.db.operations[o] && CallsOf(w', o) == CallsOf(w, o)))
    && (forall o :: o in w'.db.operations && o !in w.db.operations ==> c.payment == Some(w'.db.operations[o].payment))
  }

  ghost predicate TouchesRest(w: World, w': World, c: Claims) {
    && (forall p :: p in w.opOf ==> p in w'.opOf && w'.opOf[p] == w.opOf[p])
    && (forall k :: k in w.db.requests ==> k in w'.db.requests && w'.db.requests[k] == w.db.requests[k])
    && (forall k :: k in w'.db.requests && k !in w.db.requests ==> c.key == Some(k))
    && (forall slot :: c.slot != Some(slot) ==> AttemptsOf(w', slot) == AttemptsOf(w, slot))
    && w.readings <= w'.readings
    && (forall id :: id in w.issued ==> id in w'.issued && w'.issued[id] == w.issued[id])
  }

  /** The difference between two worlds is within some claims. */
  ghost predicate Touches(w: World, w': World, c: Claims) {
    TouchesPayments(w, w', c) && TouchesOperations(w, w', c) && TouchesRest(w, w', c)
  }
}
