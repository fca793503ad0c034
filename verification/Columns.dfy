/**
 * What one step writes, column by column. The owner of a row always finds it as its program counter says, so the
 * guards of its statements never turn a write away; only a stale refresh, or a taken provider id, changes nothing.
 */
module Columns {
  import opened Basics
  import opened PaymentStates
  import opened ProviderClient
  import opened Tables
  import opened Protocol
  import opened Effects
  import opened Invariant
  import WorldSteps

  /** A row that was there becomes b at a step of a request. */
  ghost predicate RowBecomes(w: World, th: Thread, c: Choice, p: Uuid, b: Payment)
    requires p in w.db.payments
  {
    var a := w.db.payments[p];
    if th.MarkCreating? && th.local.payment == p then
      a.status == Created && b == a.(status := Creating)
    else if th.PersistCreated? && th.local.payment == p && c.At? then
      if exists q :: q in w.db.payments && q != p && w.db.payments[q].providerId == Some(th.id) then b == a
      else a.status == Creating
           && b == a.(status := Pending, providerId := Some(th.id), checkoutUrl := Some(th.url), nextCheckAt := Some(c.nextCheck))
    else if th.PersistUnknown? && th.local.payment == p && c.At? then
      a.status == Creating && b == a.(status := CreationUnknown, nextCheckAt := Some(c.nextCheck))
    else if th.PersistCanceled? && th.local.payment == p && c.At? then
      a.status == Creating && b == a.(status := Canceled, completedAt := Some(c.now), nextCheckAt := None)
    else if th.GetApply? && th.p == p && c.At? && a.status == Pending then
      b == a.(status := th.next, completedAt := Some(c.now), nextCheckAt := Some(c.nextCheck))
    else
      b == a
  }

  /** An operation row that was there becomes b at a step of a request. */
  ghost predicate OperationBecomes(w: World, th: Thread, c: Choice, o: Uuid, b: Operation)
    requires o in w.db.operations
  {
    var a := w.db.operations[o];
    if th.StartOperation? && th.local.operation == o && c.At? then
      a.status == OpPending && b == a.(status := OpInProgress, startedAt := Some(c.now), attemptCount := 1)
    else if th.CompleteCreated? && th.local.operation == o && c.At? then
      a.status == OpInProgress && b == a.(status := OpSucceeded, completedAt := Some(c.now), lastError := Some(None))
    else if th.CompleteUnknown? && th.local.operation == o && c.At? then
      a.status == OpInProgress && b == a.(status := OpUnknown, completedAt := Some(c.now), lastError := Some(Some(th.code)))
    else if th.CompleteCanceled? && th.local.operation == o && c.At? then
      a.status == OpInProgress && b == a.(status := OpFailed, completedAt := Some(c.now), lastError := Some(Some(th.code)))
    else
      b == a
  }

  lemma InvParts(s: State, t: nat)
    requires Inv(s) && t in s.threads
    ensures WorldOK(s.world) && ThreadOK(s.world, s.threads[t])
  {
    hide WorldOK, ThreadOK;
  }

  /** Every step writes exactly these columns of a payment row. */
  lemma RowWrites(s: State, t: nat, c: Choice, p: Uuid)
    requires Inv(s) && Enabled(s, Step(t, c)) && p in s.world.db.payments
    ensures p in Apply(s, Step(t, c)).world.db.payments
    ensures RowBecomes(s.world, s.threads[t], c, p, Apply(s, Step(t, c)).world.db.payments[p])
  {
    hide Inv, Perform, Accepts, Fresh, Unblocked, RowBecomes;
    var w, th := s.world, s.threads[t];
    InvParts(s, t);
    hide WorldOK;
    StepWrites(w, th, c);
    if th.TxCommit? || th.OpenLocal? {
      InsertsBeside(w, th, c, p);
    } else if th.GetApply? {
      ApplyBecomes(w, th, c, p);
    } else if Resolved(th) || th.MarkCreating? {
      OwnerBecomes(w, th, c, p);
    } else {
      hide ThreadOK;
      SameBecomes(w, th, c, p);
    }
  }

  lemma InsertsBeside(w: World, th: Thread, c: Choice, p: Uuid)
    requires WorldOK(w) && ThreadOK(w, th) && Accepts(th, c) && (th.TxCommit? || th.OpenLocal?) && Fresh(w, c)
    requires p in w.db.payments
    ensures p in WorldAfter(w, th, c).db.payments && WorldAfter(w, th, c).db.payments[p] == w.db.payments[p]
    ensures RowBecomes(w, th, c, p, w.db.payments[p])
  {
    hide RowBecomes;
    NotWriting(w, th, c, p);
    if th.TxCommit? {
      hide WorldOK, Accepts;
      NewHere(w, th);
      hide ThreadOK;
      CommitBeside(w, th, c, p);
    } else {
      hide ThreadOK;
      WorldSteps.AtPayment(w, p);
      assert p in w.issued;
      hide WorldOK, PaymentOK;
      WholeBeside(w, th, c, p);
    }
  }

  lemma CommitBeside(w: World, th: Thread, c: Choice, p: Uuid)
    requires Accepts(th, c) && th.TxCommit? && th.local.payment !in w.db.payments && p in w.db.payments
    ensures p in WorldAfter(w, th, c).db.payments && WorldAfter(w, th, c).db.payments[p] == w.db.payments[p]
  {
  }

  lemma WholeBeside(w: World, th: Thread, c: Choice, p: Uuid)
    requires Accepts(th, c) && th.OpenLocal? && Fresh(w, c) && p in w.issued && p in w.db.payments
    ensures p in WorldAfter(w, th, c).db.payments && WorldAfter(w, th, c).db.payments[p] == w.db.payments[p]
  {
    hide NextAttemptNumber, InsertViolates, OrderHasSucceededPayment, NewPayment, NewOperation;
  }

  lemma NotWriting(w: World, th: Thread, c: Choice, p: Uuid)
    requires (th.TxCommit? || th.OpenLocal?) && p in w.db.payments
    ensures RowBecomes(w, th, c, p, w.db.payments[p])
  {
  }

  lemma NewHere(w: World, th: Thread)
    requires ThreadOK(w, th) && th.TxCommit?
    ensures th.local.payment !in w.db.payments
  {
    hide Settled;
  }

  lemma ApplyBecomes(w: World, th: Thread, c: Choice, p: Uuid)
    requires WorldOK(w) && ThreadOK(w, th) && Accepts(th, c) && th.GetApply? && p in w.db.payments
    ensures p in WorldAfter(w, th, c).db.payments
    ensures RowBecomes(w, th, c, p, WorldAfter(w, th, c).db.payments[p])
  {
    hide WorldOK;
    ApplyKnows(w, th);
    WorldSteps.AtPayment(w, th.p);
    assert RowOK(w.db.payments[th.p]);
    ApplyStore(w, th, c);
    hide ThreadOK, PaymentOK, WorldAfter, Accepts;
  }

  lemma ApplyStore(w: World, th: Thread, c: Choice)
    requires Accepts(th, c) && th.GetApply?
    ensures WorldAfter(w, th, c).db == if c.At? then ApplyProviderStatus(w.db, th.p, th.next, c.now, c.nextCheck) else w.db
  {
    hide ApplyProviderStatus;
  }

  lemma ApplyKnows(w: World, th: Thread)
    requires ThreadOK(w, th) && th.GetApply?
    ensures th.p in w.db.payments && w.db.payments[th.p].providerId.Some? && (th.next == Succeeded || th.next == Canceled)
  {
  }

  /** The owner finds its rows as its program counter says. */
  lemma OwnerFinds(w: World, th: Thread)
    requires ThreadOK(w, th) && (Resolved(th) || th.MarkCreating?)
    ensures th.local.payment in w.db.payments
    ensures w.db.payments[th.local.payment].status == if th.MarkCreating? then Created else Creating
  {
    if th.MarkCreating? { CallingMeans(w, th); }
  }

  /** A transition to creating is always legal on the local copy. */
  lemma OwnCopyIsNew(w: World, th: Thread)
    requires ThreadOK(w, th) && th.MarkCreating?
    ensures CanTransition(th.local.row.status, Creating)
  {
  }

  lemma OwnerBecomes(w: World, th: Thread, c: Choice, p: Uuid)
    requires ThreadOK(w, th) && Accepts(th, c) && (Resolved(th) || th.MarkCreating?) && p in w.db.payments
    ensures p in WorldAfter(w, th, c).db.payments
    ensures RowBecomes(w, th, c, p, WorldAfter(w, th, c).db.payments[p])
  {
    OwnerFinds(w, th);
    if th.MarkCreating? { OwnCopyIsNew(w, th); }
    hide ThreadOK;
    if th.MarkCreating? {
      MarkedBecomes(w, th, c, p);
    } else if th.PersistCreated? {
      CreatedBecomes(w, th, c, p);
    } else {
      hide RowBecomes, WorldAfter, Accepts;
      SettledBecomes(w, th, c, p);
    }
  }

  lemma MarkedBecomes(w: World, th: Thread, c: Choice, p: Uuid)
    requires Accepts(th, c) && th.MarkCreating? && CanTransition(th.local.row.status, Creating)
    requires p in w.db.payments && th.local.payment in w.db.payments && w.db.payments[th.local.payment].status == Created
    ensures p in WorldAfter(w, th, c).db.payments
    ensures RowBecomes(w, th, c, p, WorldAfter(w, th, c).db.payments[p])
  {
    hide CanTransition, Accepts;
  }

  lemma CreatedBecomes(w: World, th: Thread, c: Choice, p: Uuid)
    requires Accepts(th, c) && th.PersistCreated?
    requires p in w.db.payments && th.local.payment in w.db.payments && w.db.payments[th.local.payment].status == Creating
    ensures p in WorldAfter(w, th, c).db.payments
    ensures RowBecomes(w, th, c, p, WorldAfter(w, th, c).db.payments[p])
  {
    CreatedStore(w, th, c);
    hide WorldAfter, Accepts;
  }

  lemma CreatedStore(w: World, th: Thread, c: Choice)
    requires Accepts(th, c) && th.PersistCreated?
    ensures c.At?
    ensures WorldAfter(w, th, c).db == if ProviderIdTaken(w.db, th.local.payment, th.id) then w.db
                                       else SetPaymentCreated(w.db, th.local.payment, th.id, th.url, c.nextCheck)
  {
    hide ProviderIdTaken, SetPaymentCreated;
  }

  lemma SettledBecomes(w: World, th: Thread, c: Choice, p: Uuid)
    requires Accepts(th, c) && (th.PersistUnknown? || th.PersistCanceled?)
    requires p in w.db.payments && th.local.payment in w.db.payments && w.db.payments[th.local.payment].status == Creating
    ensures p in WorldAfter(w, th, c).db.payments
    ensures RowBecomes(w, th, c, p, WorldAfter(w, th, c).db.payments[p])
  {
  }

  lemma SameBecomes(w: World, th: Thread, c: Choice, p: Uuid)
    requires Accepts(th, c) && !th.TxCommit? && !th.OpenLocal? && !th.GetApply? && !Resolved(th) && !th.MarkCreating?
    requires p in w.db.payments
    ensures p in WorldAfter(w, th, c).db.payments
    ensures RowBecomes(w, th, c, p, WorldAfter(w, th, c).db.payments[p])
  {
    hide RequestOf, GetResult, CreateLocal, InsertLocal;
  }

  /** Every step writes exactly these columns of an operation row. */
  lemma OperationWrites(s: State, t: nat, c: Choice, o: Uuid)
    requires Inv(s) && Enabled(s, Step(t, c)) && o in s.world.db.operations
    ensures o in Apply(s, Step(t, c)).world.db.operations
    ensures OperationBecomes(s.world, s.threads[t], c, o, Apply(s, Step(t, c)).world.db.operations[o])
  {
    hide Inv, Perform, Accepts, Fresh, Unblocked, OperationBecomes;
    var w, th := s.world, s.threads[t];
    InvParts(s, t);
    StepWrites(w, th, c);
    if th.TxCommit? || th.OpenLocal? {
      hide WorldOK;
      InsertsBesideOperation(w, th, c, o);
    } else if th.StartOperation? {
      hide WorldOK;
      StartBecomes(w, th, c, o);
    } else if th.CompleteCreated? || th.CompleteUnknown? || th.CompleteCanceled? {
      hide WorldOK;
      CompleteBecomes(w, th, c, o);
    } else {
      hide WorldOK, ThreadOK;
      SameOperationBecomes(w, th, c, o);
    }
  }

  lemma InsertsBesideOperation(w: World, th: Thread, c: Choice, o: Uuid)
    requires WorldOK(w) && ThreadOK(w, th) && Accepts(th, c) && (th.TxCommit? || th.OpenLocal?) && Fresh(w, c)
    requires o in w.db.operations
    ensures o in WorldAfter(w, th, c).db.operations && WorldAfter(w, th, c).db.operations[o] == w.db.operations[o]
    ensures OperationBecomes(w, th, c, o, w.db.operations[o])
  {
    hide OperationBecomes;
    NotWritingOperation(w, th, c, o);
    if th.TxCommit? {
      hide WorldOK, Accepts;
      NewOperationHere(w, th);
      hide ThreadOK;
      CommitBesideOperation(w, th, c, o);
    } else {
      hide ThreadOK;
      WorldSteps.AtOperation(w, o);
      assert o in w.issued;
      hide WorldOK, OperationOK;
      WholeBesideOperation(w, th, c, o);
    }
  }

  lemma NotWritingOperation(w: World, th: Thread, c: Choice, o: Uuid)
    requires (th.TxCommit? || th.OpenLocal?) && o in w.db.operations
    ensures OperationBecomes(w, th, c, o, w.db.operations[o])
  {
  }

  lemma NewOperationHere(w: World, th: Thread)
    requires ThreadOK(w, th) && th.TxCommit?
    ensures th.local.operation !in w.db.operations
  {
    hide Settled;
  }

  lemma CommitBesideOperation(w: World, th: Thread, c: Choice, o: Uuid)
    requires Accepts(th, c) && th.TxCommit? && th.local.operation !in w.db.operations && o in w.db.operations
    ensures o in WorldAfter(w, th, c).db.operations && WorldAfter(w, th, c).db.operations[o] == w.db.operations[o]
  {
  }

  lemma WholeBesideOperation(w: World, th: Thread, c: Choice, o: Uuid)
    requires Accepts(th, c) && th.OpenLocal? && Fresh(w, c) && o in w.issued && o in w.db.operations
    ensures o in WorldAfter(w, th, c).db.operations && WorldAfter(w, th, c).db.operations[o] == w.db.operations[o]
  {
    hide NextAttemptNumber, InsertViolates, OrderHasSucceededPayment, NewPayment, NewOperation;
  }

  lemma OwnerFindsOperation(w: World, th: Thread)
    requires WorldOK(w) && ThreadOK(w, th)
    requires th.StartOperation? || th.CompleteCreated? || th.CompleteUnknown? || th.CompleteCanceled?
    ensures th.local.operation in w.db.operations
    ensures var op := w.db.operations[th.local.operation];
            && op.status == (if th.StartOperation? then OpPending else OpInProgress)
            && (th.StartOperation? ==> op.attemptCount == 0)
  {
    hide WorldOK;
    OwnerOperation(w, th);
    WorldSteps.AtPayment(w, th.local.payment);
    hide ThreadOK;
  }

  lemma OwnerOperation(w: World, th: Thread)
    requires ThreadOK(w, th) && (th.StartOperation? || th.CompleteCreated? || th.CompleteUnknown? || th.CompleteCanceled?)
    ensures th.local.operation in w.db.operations && th.local.payment in w.db.payments
    ensures th.local.payment in w.opOf && w.opOf[th.local.payment] == th.local.operation
    ensures w.db.operations[th.local.operation].status == if th.StartOperation? then OpPending else OpInProgress
  {
    if th.StartOperation? { CallingMeans(w, th); }
  }

  lemma StartBecomes(w: World, th: Thread, c: Choice, o: Uuid)
    requires WorldOK(w) && ThreadOK(w, th) && Accepts(th, c) && th.StartOperation? && o in w.db.operations
    ensures o in WorldAfter(w, th, c).db.operations
    ensures OperationBecomes(w, th, c, o, WorldAfter(w, th, c).db.operations[o])
  {
    OwnerFindsOperation(w, th);
    hide WorldOK, ThreadOK;
    StartStore(w, th, c);
    StartedRow(w.db, th.local.operation, c.now, o);
    hide StartPaymentOperation, WorldAfter, Accepts;
  }

  lemma StartStore(w: World, th: Thread, c: Choice)
    requires Accepts(th, c) && th.StartOperation?
    ensures c.At? && WorldAfter(w, th, c).db == StartPaymentOperation(w.db, th.local.operation, c.now)
  {
    hide StartPaymentOperation;
  }

  lemma CompleteBecomes(w: World, th: Thread, c: Choice, o: Uuid)
    requires WorldOK(w) && ThreadOK(w, th) && Accepts(th, c) && o in w.db.operations
    requires th.CompleteCreated? || th.CompleteUnknown? || th.CompleteCanceled?
    ensures o in WorldAfter(w, th, c).db.operations
    ensures OperationBecomes(w, th, c, o, WorldAfter(w, th, c).db.operations[o])
  {
    OwnerFindsOperation(w, th);
    hide WorldOK, ThreadOK;
    CompleteStore(w, th, c);
    hide CompletePaymentOperation, WorldAfter, Accepts, OperationBecomes, CompletedStatus, CompletedError;
    if c.At? {
      CompletedRow(w.db, th.local.operation, CompletedStatus(th), CompletedError(th), c.now, o);
    }
    CompletedIs(w, th, c, o, WorldAfter(w, th, c).db.operations[o]);
  }

  lemma CompletedIs(w: World, th: Thread, c: Choice, o: Uuid, b: Operation)
    requires (th.CompleteCreated? || th.CompleteUnknown? || th.CompleteCanceled?) && o in w.db.operations
    requires th.local.operation in w.db.operations && w.db.operations[th.local.operation].status == OpInProgress
    requires b == if !c.At? || o != th.local.operation then w.db.operations[o]
                  else w.db.operations[o].(status := CompletedStatus(th), completedAt := Some(c.now),
                                           lastError := Some(CompletedError(th)))
    ensures OperationBecomes(w, th, c, o, b)
  {
  }

  ghost function CompletedStatus(th: Thread): OperationStatus {
    if th.CompleteCreated? then OpSucceeded else if th.CompleteUnknown? then OpUnknown else OpFailed
  }

  ghost function CompletedError(th: Thread): Option<ErrorCode> {
    if th.CompleteUnknown? || th.CompleteCanceled? then Some(th.code) else None
  }

  lemma CompleteStore(w: World, th: Thread, c: Choice)
    requires Accepts(th, c) && (th.CompleteCreated? || th.CompleteUnknown? || th.CompleteCanceled?)
    ensures WorldAfter(w, th, c).db
            == if c.At? then CompletePaymentOperation(w.db, th.local.operation, CompletedStatus(th), CompletedError(th), c.now)
               else w.db
  {
    hide CompletePaymentOperation;
  }

  lemma StartedRow(db: Store, own: Uuid, now: Time, o: Uuid)
    requires own in db.operations && o in db.operations && db.operations[own].status == OpPending
    ensures o in StartPaymentOperation(db, own, now).operations
    ensures StartPaymentOperation(db, own, now).operations[o]
            == if o != own then db.operations[o]
               else db.operations[o].(status := OpInProgress, startedAt := Some(now), attemptCount := db.operations[o].attemptCount + 1)
  {
  }

  lemma CompletedRow(db: Store, own: Uuid, status: OperationStatus, error: Option<ErrorCode>, now: Time, o: Uuid)
    requires own in db.operations && o in db.operations
    ensures o in CompletePaymentOperation(db, own, status, error, now).operations
    ensures CompletePaymentOperation(db, own, status, error, now).operations[o]
            == if o != own then db.operations[o]
               else db.operations[o].(status := status, completedAt := Some(now), lastError := Some(error))
  {
  }

  lemma SameOperationBecomes(w: World, th: Thread, c: Choice, o: Uuid)
    requires Accepts(th, c) && !th.TxCommit? && !th.OpenLocal? && o in w.db.operations
    requires !th.StartOperation? && !th.CompleteCreated? && !th.CompleteUnknown? && !th.CompleteCanceled?
    ensures o in WorldAfter(w, th, c).db.operations
    ensures OperationBecomes(w, th, c, o, WorldAfter(w, th, c).db.operations[o])
  {
    hide RequestOf, GetResult, CreateLocal, InsertLocal;
  }
}
