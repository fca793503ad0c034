/** What a request relies on survives every step of the others. */
module Stability {
  import opened Basics
  import opened PaymentStates
  import opened Tables
  import opened Protocol
  import opened Invariant
  import opened WorldSteps

  lemma SettledStable(w: World, w': World, c: Claims, slot: Slot)
    requires TouchesPayments(w, w', c) && c.slot != Some(slot) && Settled(w.db, slot)
    ensures Settled(w'.db, slot)
  {
  }

  /** A success that lands while the order is locked closes the only open attempt. */
  lemma PaidStable(w: World, w': World, c: Claims, slot: Slot)
    requires WorldOK(w) && TouchesPayments(w, w', c) && c.slot != Some(slot) && PaidOnlyIfSettled(w.db, slot)
    ensures PaidOnlyIfSettled(w'.db, slot)
  {
    hide WorldOK, TouchesPayments;
    if OrderHasSucceededPayment(w'.db, slot) && !Settled(w'.db, slot) {
      var p :| p in w'.db.payments && w'.db.payments[p].slot == slot && w'.db.payments[p].status == Succeeded;
      var q :| q in w'.db.payments && w'.db.payments[q].slot == slot && !w'.db.payments[q].status.Terminal();
      OldRow(w, w', c, p);
      OldRow(w, w', c, q);
      if w.db.payments[p].status != Succeeded {
        OneActive(w, p, q);
      }
    }
  }

  /** A row of an order nobody inserts into was there before; an open one was open, one that became succeeded was open. */
  lemma OldRow(w: World, w': World, c: Claims, p: Uuid)
    requires TouchesPayments(w, w', c) && p in w'.db.payments && c.slot != Some(w'.db.payments[p].slot)
    ensures p in w.db.payments && w.db.payments[p].slot == w'.db.payments[p].slot
    ensures !w'.db.payments[p].status.Terminal() ==> !w.db.payments[p].status.Terminal()
    ensures w'.db.payments[p].status == Succeeded ==> w.db.payments[p].status == Succeeded || !w.db.payments[p].status.Terminal()
  {
  }
  /** The rows of an owner without a provider id stand still. */
  lemma OwnsAtStable(w: World, w': World, c: Claims, req: CreateRequest, l: Local, status: Status, op: OperationStatus, calls: nat)
    requires OwnsAt(w, req, l, status, op, calls) && status != Pending && status != Succeeded
    requires Touches(w, w', c) && c.payment != Some(l.payment)
    ensures OwnsAt(w', req, l, status, op, calls)
  {
  }

  lemma OwnsStable(w: World, w': World, c: Claims, req: CreateRequest, l: Local)
    requires Owns(w, req, l) && Touches(w, w', c) && c.payment != Some(l.payment)
    ensures Owns(w', req, l)
    ensures w.db.payments[l.payment].providerId.Some? ==> w'.db.payments[l.payment].providerId.Some?
    ensures w.db.payments[l.payment].status == CreationUnknown ==> w'.db.payments[l.payment].status == CreationUnknown
    ensures w'.db.operations[l.operation] == w.db.operations[l.operation]
  {
  }

  lemma SnapshotStable(w: World, w': World, c: Claims, app: AppId, p: Uuid, row: Payment)
    requires SnapshotOK(w, app, p, row) && TouchesPayments(w, w', c)
    ensures SnapshotOK(w', app, p, row)
  {
  }

  lemma ResponseStable(w: World, w': World, c: Claims, req: CreateRequest, r: CreateResponse)
    requires ResponseOK(w, req, r) && Touches(w, w', c)
    ensures ResponseOK(w', req, r)
  {
  }

  lemma Pending1Stable(w: World, w': World, c: Claims, req: CreateRequest, p: Uuid, row: Payment)
    requires Pending1(w, req, p, row) && Touches(w, w', c) && c.slot != Some(req.slot) && c.payment != Some(p)
    ensures Pending1(w', req, p, row)
  {
    SettledStable(w, w', c, req.slot);
    hide Settled;
  }

  lemma Pending2Stable(w: World, w': World, c: Claims, req: CreateRequest, l: Local, op: Operation)
    requires WorldOK(w') && Pending2(w, req, l, op)
    requires Touches(w, w', c) && c.slot != Some(req.slot) && c.payment != Some(l.payment)
    ensures Pending2(w', req, l, op)
  {
    hide WorldOK;
    Pending1Stable(w, w', c, req, l.payment, l.row);
    if l.operation in w'.db.operations {
      AtOperation(w', l.operation);
    }
  }

  lemma StableTx(w: World, w': World, th: Thread, c: Claims)
    requires InTx(th) && WorldOK(w) && WorldOK(w') && ThreadOK(w, th) && Touches(w, w', c) && Apart(ClaimsOf(th), c)
    ensures ThreadOK(w', th)
  {
    hide WorldOK, Settled, PaidOnlyIfSettled, Pending1, Pending2, ClaimsOf;
    TxClaims(th);
    match th
    case TxCheckPaid(_, _) =>
    case TxCheckKey(req, _) => PaidStable(w, w', c, req.slot);
    case TxNumber(req, _, seen) =>
      PaidStable(w, w', c, req.slot);
      if Settled(seen, req.slot) { SettledStable(w, w', c, req.slot); }
    case TxInsertPayment(req, _, seen, _) =>
      PaidStable(w, w', c, req.slot);
      if Settled(seen, req.slot) { SettledStable(w, w', c, req.slot); }
    case TxInsertOperation(req, p, row) => Pending1Stable(w, w', c, req, p, row);
    case TxInsertKey(req, l, op) => Pending2Stable(w, w', c, req, l, op);
    case TxCommit(req, l, op) => Pending2Stable(w, w', c, req, l, op);
  }

  lemma TxClaims(th: Thread)
    requires InTx(th)
    ensures ClaimsOf(th).slot == Some(th.req.slot)
    ensures th.TxInsertOperation? ==> ClaimsOf(th).payment == Some(th.p)
    ensures th.TxInsertKey? || th.TxCommit? ==> ClaimsOf(th).payment == Some(th.local.payment)
    ensures th.TxCommit? ==> ClaimsOf(th).key == Some(th.req.Key())
  {
  }

  lemma StableCalling(w: World, w': World, th: Thread, c: Claims)
    requires Calling(th) && ThreadOK(w, th) && Touches(w, w', c) && Apart(ClaimsOf(th), c)
    ensures ThreadOK(w', th)
  {
    hide OwnsAt, Touches, ClaimsOf, ThreadOK;
    CallingClaims(th);
    CallingMeans(w, th);
    CallingMeans(w', th);
    OwnsAtStable(w, w', c, th.req, th.local, CallingStatus(th), CallingOperation(th), if th.AwaitAnswer? then 1 else 0);
  }
  lemma StablePersisting(w: World, w': World, th: Thread, c: Claims)
    requires th.PersistCreated? || th.PersistUnknown? || th.PersistCanceled?
    requires ThreadOK(w, th) && Touches(w, w', c) && Apart(ClaimsOf(th), c)
    ensures ThreadOK(w', th)
  {
    hide OwnsAt, Touches;
    match th
    case PersistCanceled(req, l, _) =>
      var calls := if OwnsAt(w, req, l, Creating, OpInProgress, 0) then 0 else 1;
      OwnsAtStable(w, w', c, req, l, Creating, OpInProgress, calls);
    case PersistCreated(req, l, _, _) => OwnsAtStable(w, w', c, req, l, Creating, OpInProgress, 1);
    case PersistUnknown(req, l, _) => OwnsAtStable(w, w', c, req, l, Creating, OpInProgress, 1);
  }

  lemma StableSettling(w: World, w': World, th: Thread, c: Claims)
    requires Settling(th) && !(th.PersistCreated? || th.PersistUnknown? || th.PersistCanceled?)
    requires ThreadOK(w, th) && Touches(w, w', c) && Apart(ClaimsOf(th), c)
    ensures ThreadOK(w', th)
  {
    hide OwnsAt, Touches, Owns, ClaimsOf;
    CallingClaims(th);
    match th
    case CompleteUnknown(req, l, _) => OwnsAtStable(w, w', c, req, l, CreationUnknown, OpInProgress, 1);
    case CompleteCanceled(req, l, _) =>
      var calls := if OwnsAt(w, req, l, Canceled, OpInProgress, 0) then 0 else 1;
      OwnsAtStable(w, w', c, req, l, Canceled, OpInProgress, calls);
    case CompleteCreated(req, l) => OwnsStable(w, w', c, req, l);
    case RereadCreated(req, l) => OwnsStable(w, w', c, req, l);
    case RereadUnknown(req, l) => OwnsStable(w, w', c, req, l);
  }

  /** A request's part of the invariant survives a step that touches nothing it holds. */
  lemma Stable(w: World, w': World, th: Thread, c: Claims)
    requires WorldOK(w) && WorldOK(w') && ThreadOK(w, th) && Touches(w, w', c) && Apart(ClaimsOf(th), c)
    ensures ThreadOK(w', th)
  {
    hide WorldOK, OwnsAt, Owns;
    if InTx(th) {
      StableTx(w, w', th, c);
    } else if Calling(th) {
      StableCalling(w, w', th, c);
    } else if th.PersistCreated? || th.PersistUnknown? || th.PersistCanceled? {
      StablePersisting(w, w', th, c);
    } else if Settling(th) {
      StableSettling(w, w', th, c);
    } else {
      match th
      case CreateDone(req, r) => ResponseStable(w, w', c, req, r);
      case GetRefresh(app, p, row) => SnapshotStable(w, w', c, app, p, row);
      case GetApply(app, p, row, _) => SnapshotStable(w, w', c, app, p, row);
      case GetReread(app, p, row) => SnapshotStable(w, w', c, app, p, row);
      case _ =>
    }
  }
}
