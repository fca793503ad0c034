/** Each kind of write keeps the tables consistent and stays within its writer's claims. */
module WorldSteps {
  import opened Basics
  import opened Tables
  import opened Protocol
  import opened Invariant

  // ---- taking the invariant of the tables apart and putting it together ----

  lemma AtPayment(w: World, p: Uuid)
    requires WorldOK(w) && p in w.db.payments
    ensures PaymentOK(w, p)
  {
  }

  lemma AtOperation(w: World, o: Uuid)
    requires WorldOK(w) && o in w.db.operations
    ensures OperationOK(w, o)
  {
  }

  lemma AtSlot(w: World, slot: Slot)
    requires WorldOK(w) && slot in w.attempts
    ensures AttemptsOK(w, slot)
  {
  }

  lemma AtRequest(w: World, k: ClientKey)
    requires WorldOK(w) && k in w.db.requests
    ensures RequestOK(w, k)
  {
  }

  lemma Domains(w: World)
    requires WorldOK(w)
    ensures forall p :: p in w.opOf ==> p in w.db.payments
    ensures forall o :: o in w.calls ==> o in w.db.operations
    ensures ProviderIdsUnique(w.db)
  {
  }

  lemma MakeWorld(w: World)
    requires forall p :: p in w.db.payments ==> PaymentOK(w, p)
    requires forall o :: o in w.db.operations ==> OperationOK(w, o)
    requires forall slot :: slot in w.attempts ==> AttemptsOK(w, slot)
    requires forall k :: k in w.db.requests ==> RequestOK(w, k)
    requires forall p :: p in w.opOf ==> p in w.db.payments
    requires forall o :: o in w.calls ==> o in w.db.operations
    requires ProviderIdsUnique(w.db)
    ensures WorldOK(w)
  {
  }

  ghost predicate IssuedKept(w: World, w': World) {
    forall id :: id in w.issued ==> id in w'.issued && w'.issued[id] == w.issued[id]
  }

  lemma PaymentFrame(w: World, w': World, p: Uuid)
    requires p in w.db.payments && PaymentOK(w, p)
    requires p in w'.db.payments && w'.db.payments[p] == w.db.payments[p]
    requires p in w'.opOf && w'.opOf[p] == w.opOf[p]
    requires w.opOf[p] in w'.db.operations && w'.db.operations[w.opOf[p]] == w.db.operations[w.opOf[p]]
    requires CallsOf(w', w.opOf[p]) == CallsOf(w, w.opOf[p])
    requires AttemptsOf(w, w.db.payments[p].slot) <= AttemptsOf(w', w.db.payments[p].slot)
    requires w.readings <= w'.readings && IssuedKept(w, w')
    ensures PaymentOK(w', p)
  {
  }

  lemma RebuiltFrame(a: Payment, b: Payment, op: Operation, op': Operation)
    requires SameIdentity(a, b) && SameOperation(op, op')
    ensures Rebuilt(a, op) == Rebuilt(b, op')
  {
  }

  lemma OperationFrame(w: World, w': World, o: Uuid)
    requires o in w.db.operations && OperationOK(w, o)
    requires o in w'.db.operations && SameOperation(w.db.operations[o], w'.db.operations[o])
    requires CallsOf(w', o) == CallsOf(w, o)
    requires var p := w.db.operations[o].payment;
             && p in w'.db.payments && SameIdentity(w.db.payments[p], w'.db.payments[p])
             && p in w'.opOf && w'.opOf[p] == o
    requires IssuedKept(w, w')
    ensures OperationOK(w', o)
  {
    var op, op' := w.db.operations[o], w'.db.operations[o];
    RebuiltFrame(w.db.payments[op.payment], w'.db.payments[op.payment], op, op');
  }

  lemma SlotFrame(w: World, w': World, slot: Slot)
    requires slot in w.attempts && AttemptsOK(w, slot)
    requires slot in w'.attempts && w'.attempts[slot] == w.attempts[slot]
    requires forall p :: p in w.db.payments ==>
      && p in w'.db.payments && SameIdentity(w.db.payments[p], w'.db.payments[p])
      && (w.db.payments[p].status.Terminal() ==> w'.db.payments[p].status.Terminal())
    ensures AttemptsOK(w', slot)
  {
  }

  // ---- one payment row ----

  function Putting(w: World, p: Uuid, row: Payment): World {
    w.(db := PutPayment(w.db, p, row))
  }

  ghost predicate RowCanReplace(w: World, p: Uuid, row: Payment) {
    && p in w.db.payments && p in w.opOf && w.opOf[p] in w.db.operations
    && RowChange(w.db.payments[p], row, true)
    && RowOK(row) && Coupled(row, w.db.operations[w.opOf[p]], |CallsOf(w, w.opOf[p])|) && Confirmed(row, w.readings)
    && (row.providerId.Some? ==>
          row.providerId == w.db.payments[p].providerId || !ProviderIdTaken(w.db, p, row.providerId.value))
  }

  lemma PutPaymentAt(w: World, p: Uuid, row: Payment)
    requires p in w.db.payments && PaymentOK(w, p) && RowCanReplace(w, p, row)
    ensures PaymentOK(Putting(w, p, row), p)
  {
  }

  lemma PutPaymentIds(w: World, p: Uuid, row: Payment)
    requires ProviderIdsUnique(w.db) && RowCanReplace(w, p, row)
    ensures ProviderIdsUnique(PutPayment(w.db, p, row))
  {
  }

  /** Writing one payment row along a legal change. */
  lemma PutPaymentKeeps(w: World, p: Uuid, row: Payment)
    requires WorldOK(w) && RowCanReplace(w, p, row)
    ensures WorldOK(Putting(w, p, row))
  {
    hide WorldOK, PaymentOK, OperationOK, AttemptsOK, RequestOK, ProviderIdsUnique;
    var w' := Putting(w, p, row);
    AtPayment(w, p);
    forall q | q in w'.db.payments ensures PaymentOK(w', q) {
      AtPayment(w, q);
      if q == p { PutPaymentAt(w, p, row); } else { PutPaymentOther(w, p, row, q); }
    }
    forall o | o in w'.db.operations ensures OperationOK(w', o) {
      AtOperation(w, o);
      PutPaymentOperation(w, p, row, o);
    }
    forall slot | slot in w'.attempts ensures AttemptsOK(w', slot) {
      AtSlot(w, slot);
      SlotFrame(w, w', slot);
    }
    forall k | k in w'.db.requests ensures RequestOK(w', k) {
      AtRequest(w, k);
      PutPaymentRequest(w, p, row, k);
    }
    Domains(w);
    PutPaymentIds(w, p, row);
    MakeWorld(w');
  }

  lemma PutPaymentOther(w: World, p: Uuid, row: Payment, q: Uuid)
    requires q in w.db.payments && PaymentOK(w, q) && q != p
    ensures PaymentOK(Putting(w, p, row), q)
  {
    PaymentFrame(w, Putting(w, p, row), q);
  }

  lemma PutPaymentOperation(w: World, p: Uuid, row: Payment, o: Uuid)
    requires o in w.db.operations && OperationOK(w, o) && p in w.db.payments && SameIdentity(w.db.payments[p], row)
    ensures OperationOK(Putting(w, p, row), o)
  {
    OperationFrame(w, Putting(w, p, row), o);
  }

  lemma PutPaymentRequest(w: World, p: Uuid, row: Payment, k: ClientKey)
    requires k in w.db.requests && RequestOK(w, k) && p in w.db.payments && SameIdentity(w.db.payments[p], row)
    ensures RequestOK(Putting(w, p, row), k)
  {
  }

  lemma PutPaymentTouches(w: World, p: Uuid, row: Payment)
    requires p in w.db.payments && RowChange(w.db.payments[p], row, true)
    ensures Touches(w, Putting(w, p, row), Claims(Some(p), None, None))
  {
  }

  /** A refresh that settles a row touches nothing anybody holds. */
  lemma SettleTouches(w: World, p: Uuid, row: Payment)
    requires p in w.db.payments && RowChange(w.db.payments[p], row, false)
    ensures Touches(w, Putting(w, p, row), NOTHING)
  {
  }

  // ---- one operation row ----

  function PuttingOp(w: World, o: Uuid, op: Operation): World {
    w.(db := PutOperation(w.db, o, op))
  }

  lemma PutOperationPayment(w: World, o: Uuid, op: Operation, q: Uuid)
    requires o in w.db.operations && SameOperation(w.db.operations[o], op) && op.payment in w.db.payments
    requires Coupled(w.db.payments[op.payment], op, |CallsOf(w, o)|)
    requires q in w.db.payments && PaymentOK(w, q)
    ensures PaymentOK(PuttingOp(w, o, op), q)
  {
  }

  lemma PutOperationOther(w: World, o: Uuid, op: Operation, q: Uuid)
    requires o in w.db.operations && SameOperation(w.db.operations[o], op)
    requires q in w.db.operations && OperationOK(w, q)
    ensures OperationOK(PuttingOp(w, o, op), q)
  {
    OperationFrame(w, PuttingOp(w, o, op), q);
  }

  /** Writing one operation row. */
  lemma PutOperationKeeps(w: World, o: Uuid, op: Operation)
    requires WorldOK(w) && o in w.db.operations
    requires SameOperation(w.db.operations[o], op) && op.payment in w.db.payments
    requires Coupled(w.db.payments[op.payment], op, |CallsOf(w, o)|)
    ensures WorldOK(PuttingOp(w, o, op))
  {
    hide WorldOK, PaymentOK, OperationOK, AttemptsOK, RequestOK;
    var w' := PuttingOp(w, o, op);
    forall q | q in w'.db.payments ensures PaymentOK(w', q) {
      AtPayment(w, q);
      PutOperationPayment(w, o, op, q);
    }
    forall q | q in w'.db.operations ensures OperationOK(w', q) {
      AtOperation(w, q);
      PutOperationOther(w, o, op, q);
    }
    SamePaymentsKeep(w, w');
    Domains(w);
    MakeWorld(w');
  }

  lemma SamePaymentsKeep(w: World, w': World)
    requires WorldOK(w) && w'.db.payments == w.db.payments && w'.db.requests == w.db.requests && w'.attempts == w.attempts
    ensures forall slot :: slot in w'.attempts ==> AttemptsOK(w', slot)
    ensures forall k :: k in w'.db.requests ==> RequestOK(w', k)
  {
    hide WorldOK;
    forall slot | slot in w'.attempts ensures AttemptsOK(w', slot) {
      AtSlot(w, slot);
    }
    forall k | k in w'.db.requests ensures RequestOK(w', k) {
      AtRequest(w, k);
    }
  }

  lemma PutOperationTouches(w: World, o: Uuid, op: Operation)
    requires o in w.db.operations && SameOperation(w.db.operations[o], op)
    ensures Touches(w, PuttingOp(w, o, op), Claims(Some(op.payment), None, None))
  {
  }

  // ---- one call ----

  function Sending(w: World, o: Uuid, request: ProviderRequest): World {
    w.(calls := w.calls[o := CallsOf(w, o) + [request]])
  }

  lemma SendPayment(w: World, o: Uuid, request: ProviderRequest, q: Uuid)
    requires o in w.db.operations && |CallsOf(w, o)| < w.db.operations[o].attemptCount
    requires q in w.db.payments && PaymentOK(w, q)
    ensures PaymentOK(Sending(w, o, request), q)
  {
  }

  lemma SendOperation(w: World, o: Uuid, request: ProviderRequest, q: Uuid)
    requires o in w.db.operations && w.db.operations[o].payment in w.db.payments
    requires request == Rebuilt(w.db.payments[w.db.operations[o].payment], w.db.operations[o])
    requires q in w.db.operations && OperationOK(w, q)
    ensures OperationOK(Sending(w, o, request), q)
  {
    hide Rebuilt;
    if q != o {
      OperationFrame(w, Sending(w, o, request), q);
    }
  }

  /** Sending one request. */
  lemma SendKeeps(w: World, o: Uuid, request: ProviderRequest)
    requires WorldOK(w) && o in w.db.operations && w.db.operations[o].payment in w.db.payments
    requires |CallsOf(w, o)| < w.db.operations[o].attemptCount
    requires request == Rebuilt(w.db.payments[w.db.operations[o].payment], w.db.operations[o])
    ensures WorldOK(Sending(w, o, request))
  {
    hide WorldOK, PaymentOK, OperationOK, AttemptsOK, RequestOK, Rebuilt;
    var w' := Sending(w, o, request);
    forall q | q in w'.db.payments ensures PaymentOK(w', q) {
      AtPayment(w, q);
      SendPayment(w, o, request, q);
    }
    forall q | q in w'.db.operations ensures OperationOK(w', q) {
      AtOperation(w, q);
      SendOperation(w, o, request, q);
    }
    SamePaymentsKeep(w, w');
    Domains(w);
    MakeWorld(w');
  }

  lemma SendTouches(w: World, o: Uuid, request: ProviderRequest)
    requires o in w.db.operations
    ensures Touches(w, Sending(w, o, request), Claims(Some(w.db.operations[o].payment), None, None))
  {
  }

  // ---- records of readings and drawn ids ----

  ghost predicate OnlyRecords(w: World, w': World) {
    && w' == w.(readings := w'.readings, issued := w'.issued)
    && w.readings <= w'.readings && IssuedKept(w, w')
  }

  lemma RecordKeeps(w: World, w': World)
    requires WorldOK(w) && OnlyRecords(w, w')
    ensures WorldOK(w')
  {
    hide WorldOK, PaymentOK, OperationOK, AttemptsOK, RequestOK;
    forall q | q in w'.db.payments ensures PaymentOK(w', q) {
      AtPayment(w, q);
      RecordPayment(w, w', q);
    }
    forall q | q in w'.db.operations ensures OperationOK(w', q) {
      AtOperation(w, q);
      RecordOperation(w, w', q);
    }
    SamePaymentsKeep(w, w');
    Domains(w);
    MakeWorld(w');
  }

  lemma RecordPayment(w: World, w': World, q: Uuid)
    requires OnlyRecords(w, w') && q in w.db.payments && PaymentOK(w, q)
    ensures PaymentOK(w', q)
  {
    PaymentFrame(w, w', q);
  }

  lemma RecordOperation(w: World, w': World, q: Uuid)
    requires OnlyRecords(w, w') && q in w.db.operations && OperationOK(w, q)
    ensures OperationOK(w', q)
  {
    OperationFrame(w, w', q);
  }

  lemma RecordTouches(w: World, w': World)
    requires OnlyRecords(w, w')
    ensures Touches(w, w', NOTHING)
  {
  }

  // ---- numbering ----

  /** The attempts list of an order is exactly its rows, so the next number is one past its length. */
  lemma NextIsLength(w: World, slot: Slot)
    requires WorldOK(w)
    ensures NextAttemptNumber(w.db, slot) == |AttemptsOf(w, slot)| + 1
  {
    hide WorldOK, NextAttemptNumber;
    var n := NextAttemptNumber(w.db, slot);
    var list := AttemptsOf(w, slot);
    if slot in w.attempts {
      AtSlot(w, slot);
      var last := list[|list| - 1];
      assert last in w.db.payments && w.db.payments[last].slot == slot && w.db.payments[last].attempt == |list|;
    }
    if n != 1 {
      var p :| p in w.db.payments && w.db.payments[p].slot == slot && w.db.payments[p].attempt == n - 1;
      AtPayment(w, p);
    }
  }

  /** A number past the end of the attempts list is not taken. */
  lemma NextIsFree(w: World, row: Payment)
    requires WorldOK(w) && row.attempt == |AttemptsOf(w, row.slot)| + 1
    ensures !NumberTaken(w.db, row)
  {
    hide WorldOK;
    forall q | q in w.db.payments && w.db.payments[q].slot == row.slot ensures w.db.payments[q].attempt != row.attempt {
      AtPayment(w, q);
    }
  }

  /** An insert with the next number is refused exactly when the order has an open attempt. */
  lemma ViolationIsActive(w: World, row: Payment)
    requires WorldOK(w) && row.attempt == |AttemptsOf(w, row.slot)| + 1
    ensures InsertViolates(w.db, row) <==> !Settled(w.db, row.slot)
  {
    hide WorldOK;
    NextIsFree(w, row);
  }

  /** Two open attempts of one order are the same row. */
  lemma OneActive(w: World, p: Uuid, q: Uuid)
    requires WorldOK(w) && p in w.db.payments && q in w.db.payments
    requires w.db.payments[p].slot == w.db.payments[q].slot
    requires !w.db.payments[p].status.Terminal() && !w.db.payments[q].status.Terminal()
    ensures p == q
  {
    hide WorldOK;
    AtPayment(w, p);
    AtPayment(w, q);
    AtSlot(w, w.db.payments[p].slot);
  }

  // ---- the three rows of a new attempt ----

  ghost predicate CanInsert(w: World, req: CreateRequest, l: Local, op: Operation) {
    WorldOK(w) && Pending2(w, req, l, op) && req.Key() !in w.db.requests
  }

  lemma InsertNewPayment(w: World, req: CreateRequest, l: Local, op: Operation)
    requires CanInsert(w, req, l, op)
    ensures PaymentOK(InsertLocal(w, req, l, op), l.payment)
  {
    hide WorldOK;
    Domains(w);
    var w' := InsertLocal(w, req, l, op);
    assert CallsOf(w', l.operation) == [];
  }

  lemma InsertOldPayment(w: World, req: CreateRequest, l: Local, op: Operation, q: Uuid)
    requires Pending2(w, req, l, op) && q in w.db.payments && PaymentOK(w, q)
    ensures PaymentOK(InsertLocal(w, req, l, op), q)
  {
    hide Settled;
    PaymentFrame(w, InsertLocal(w, req, l, op), q);
  }

  lemma InsertNewOperation(w: World, req: CreateRequest, l: Local, op: Operation)
    requires CanInsert(w, req, l, op)
    ensures OperationOK(InsertLocal(w, req, l, op), l.operation)
  {
    hide WorldOK;
    Domains(w);
    assert CallsOf(InsertLocal(w, req, l, op), l.operation) == [];
  }

  lemma InsertOldOperation(w: World, req: CreateRequest, l: Local, op: Operation, o: Uuid)
    requires Pending2(w, req, l, op) && o in w.db.operations && OperationOK(w, o)
    ensures OperationOK(InsertLocal(w, req, l, op), o)
  {
    hide Settled;
    OperationFrame(w, InsertLocal(w, req, l, op), o);
  }

  lemma InsertSlot(w: World, req: CreateRequest, l: Local, op: Operation, slot: Slot)
    requires CanInsert(w, req, l, op) && slot in InsertLocal(w, req, l, op).attempts
    ensures AttemptsOK(InsertLocal(w, req, l, op), slot)
  {
    hide WorldOK;
    var w' := InsertLocal(w, req, l, op);
    if slot in w.attempts {
      AtSlot(w, slot);
    }
    if slot == req.slot {
      var list := AttemptsOf(w, slot);
      assert w'.attempts[slot] == list + [l.payment];
      forall i | 0 <= i < |list|
        ensures list[i] in w.db.payments && w.db.payments[list[i]].slot == slot && w.db.payments[list[i]].attempt == i + 1
                && w.db.payments[list[i]].status.Terminal()
      {
      }
    }
  }

  lemma InsertRequest(w: World, req: CreateRequest, l: Local, op: Operation, k: ClientKey)
    requires CanInsert(w, req, l, op) && k in InsertLocal(w, req, l, op).db.requests
    ensures RequestOK(InsertLocal(w, req, l, op), k)
  {
    hide WorldOK;
    if k in w.db.requests {
      AtRequest(w, k);
    }
  }

  lemma InsertIds(w: World, req: CreateRequest, l: Local, op: Operation)
    requires ProviderIdsUnique(w.db) && IsNewRow(l.row, req, l.row.attempt)
    ensures ProviderIdsUnique(InsertLocal(w, req, l, op).db)
  {
  }

  /** Committing the rows of a new attempt. */
  lemma InsertKeeps(w: World, req: CreateRequest, l: Local, op: Operation)
    requires CanInsert(w, req, l, op)
    ensures WorldOK(InsertLocal(w, req, l, op))
  {
    hide WorldOK, PaymentOK, OperationOK, AttemptsOK, RequestOK, ProviderIdsUnique, Settled;
    var w' := InsertLocal(w, req, l, op);
    forall q | q in w'.db.payments ensures PaymentOK(w', q) {
      if q == l.payment { InsertNewPayment(w, req, l, op); } else { AtPayment(w, q); InsertOldPayment(w, req, l, op, q); }
    }
    forall o | o in w'.db.operations ensures OperationOK(w', o) {
      if o == l.operation { InsertNewOperation(w, req, l, op); } else { AtOperation(w, o); InsertOldOperation(w, req, l, op, o); }
    }
    forall slot | slot in w'.attempts ensures AttemptsOK(w', slot) {
      InsertSlot(w, req, l, op, slot);
    }
    forall k | k in w'.db.requests ensures RequestOK(w', k) {
      InsertRequest(w, req, l, op, k);
    }
    Domains(w);
    InsertIds(w, req, l, op);
    MakeWorld(w');
  }

  lemma InsertTouchesPayments(w: World, req: CreateRequest, l: Local, op: Operation)
    requires IsNewRow(l.row, req, l.row.attempt) && l.payment !in w.db.payments
    ensures TouchesPayments(w, InsertLocal(w, req, l, op), Claims(Some(l.payment), Some(req.slot), Some(req.Key())))
  {
  }

  lemma InsertTouchesOperations(w: World, req: CreateRequest, l: Local, op: Operation)
    requires l.operation !in w.db.operations && op.payment == l.payment
    ensures TouchesOperations(w, InsertLocal(w, req, l, op), Claims(Some(l.payment), Some(req.slot), Some(req.Key())))
  {
  }

  lemma InsertTouchesRest(w: World, req: CreateRequest, l: Local, op: Operation)
    requires req.Key() !in w.db.requests && l.payment !in w.opOf
    ensures TouchesRest(w, InsertLocal(w, req, l, op), Claims(Some(l.payment), Some(req.slot), Some(req.Key())))
  {
  }

  lemma InsertTouches(w: World, req: CreateRequest, l: Local, op: Operation)
    requires CanInsert(w, req, l, op)
    ensures Touches(w, InsertLocal(w, req, l, op), Claims(Some(l.payment), Some(req.slot), Some(req.Key())))
  {
    hide WorldOK, Settled, TouchesPayments, TouchesOperations, TouchesRest;
    Domains(w);
    InsertTouchesPayments(w, req, l, op);
    InsertTouchesOperations(w, req, l, op);
    InsertTouchesRest(w, req, l, op);
  }
}
