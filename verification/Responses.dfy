/** When a create request is answered, with what, and why: every response of every run has its cause in the tables. */
module Responses {
  import opened Basics
  import opened PaymentStates
  import opened Tables
  import opened Protocol
  import opened Effects
  import opened Invariant
  import opened WorldSteps
  import Histories
  import Idempotency
  import opened Runs
  import opened Columns
  import opened Outcomes

  ghost predicate Paid(db: Store, slot: Slot) {
    exists p :: p in db.payments && db.payments[p].slot == slot && db.payments[p].status == Succeeded
  }

  ghost predicate Open(db: Store, slot: Slot) {
    exists p :: p in db.payments && db.payments[p].slot == slot
             && db.payments[p].status != Succeeded && db.payments[p].status != Canceled
  }

  /** The step that takes the whole transaction at once. */
  predicate Whole(th: Thread, c: Choice) {
    th.OpenLocal? && c.Atomic?
  }

  /** Why a step ends a create request with an error. */
  ghost predicate Cause(w: World, th: Thread, c: Choice, f: Failure)
    requires CreateThread(th)
  {
    var db, key := w.db, th.req.Key();
    match f
    case IdempotencyConflict =>
      (th.ReadKey? || th.RaceReread?) && key in db.requests && db.requests[key].hash != th.req.hash
    case OrderAlreadySucceeded => (th.CheckPaid? || th.TxCheckPaid? || Whole(th, c)) && Paid(db, th.req.slot)
    case NoProviderAccount => th.ReadAccount? && c == Account(None)
    case ActiveAttemptExists =>
      && (th.TxInsertPayment? || (Whole(th, c) && !Paid(db, th.req.slot) && key !in db.requests))
      && Open(db, th.req.slot)
    case Refused(code) => th.CompleteCanceled? && th.code == code
    case Internal => th.PersistCreated? && Carried(w, th.local.payment, th.id)
    case NotFound => false
    case IllegalTransition => false
    case KeyRace => false
  }

  /** The row as it is in the table at that step, and from which read. */
  ghost predicate ReadNow(w: World, th: Thread, p: Uuid, row: Payment, replayed: bool, pending: bool) {
    && p in w.db.payments && row == w.db.payments[p]
    && if th.ReplayRead? then
         p == th.p && replayed
         && (pending <==> row.status != Succeeded && row.status != Canceled && row.checkoutUrl.None?)
       else if th.RereadCreated? then p == th.local.payment && !replayed && !pending
       else th.RereadUnknown? && p == th.local.payment && !replayed && pending
  }

  ghost predicate Given(w: World, th: Thread, c: Choice, response: CreateResponse)
    requires CreateThread(th)
  {
    match response
    case Accepted(p, row, replayed, pending) => ReadNow(w, th, p, row, replayed, pending)
    case Failed(f) => Cause(w, th, c, f)
  }

  /** A step ends a create request with a response exactly when it is given so. */
  lemma RespondsExactly(w: World, th: Thread, c: Choice, response: CreateResponse)
    requires WorldOK(w) && ThreadOK(w, th) && CreateThread(th) && Accepts(th, c)
    ensures Perform(w, th, c).thread == CreateDone(th.req, response) <==> Given(w, th, c, response)
  {
    hide Given, Perform, WorldOK, ThreadOK, Accepts;
    if InTx(th) || th.OpenLocal? {
      TxResponds(w, th, c, response);
    } else if Calling(th) {
      CallResponds(w, th, c, response);
    } else if Settling(th) {
      SettleResponds(w, th, c, response);
    } else {
      BeginResponds(w, th, c, response);
    }
  }

  lemma CallResponds(w: World, th: Thread, c: Choice, response: CreateResponse)
    requires CreateThread(th) && ThreadOK(w, th) && Accepts(th, c) && Calling(th)
    ensures Perform(w, th, c).thread != CreateDone(th.req, response) && !Given(w, th, c, response)
  {
    hide Perform;
    if th.MarkCreating? { OwnCopyIsNew(w, th); }
    hide ThreadOK;
    CallGoesOn(w, th, c);
    NotGivenCalling(w, th, c, response);
    hide Given, Accepts;
  }

  lemma NotGivenCalling(w: World, th: Thread, c: Choice, response: CreateResponse)
    requires Calling(th)
    ensures !Given(w, th, c, response)
  {
    hide Carried, Paid, Open;
  }

  lemma CallGoesOn(w: World, th: Thread, c: Choice)
    requires Accepts(th, c) && Calling(th) && (th.MarkCreating? ==> CanTransition(th.local.row.status, Creating))
    ensures !Perform(w, th, c).thread.CreateDone?
  {
    hide PerformBegin, PerformTx, PerformSettle, PerformGet, RequestOf, MarkPaymentCreating, StartPaymentOperation, CanTransition;
    if c.Reply? { FlowAnswer(th.req, th.local, c.exchange); }
    hide AfterCall;
  }

  lemma SettleResponds(w: World, th: Thread, c: Choice, response: CreateResponse)
    requires CreateThread(th) && ThreadOK(w, th) && Accepts(th, c) && Settling(th)
    ensures Perform(w, th, c).thread == CreateDone(th.req, response) <==> Given(w, th, c, response)
  {
    hide Perform;
    SettleMoves(w, th, c);
    hide ThreadOK, Accepts;
    SettlementGives(w, th, c, Perform(w, th, c).thread, response);
    hide Given, Settlement;
  }

  lemma SettlementGives(w: World, th: Thread, c: Choice, next: Thread, response: CreateResponse)
    requires Settling(th) && th.local.payment in w.db.payments && Settlement(w, th, next)
    ensures next == CreateDone(th.req, response) <==> Given(w, th, c, response)
  {
    hide Given, Settlement;
    if th.RereadCreated? || th.RereadUnknown? {
      RereadGives(w, th, c, next, response);
    } else {
      WriteGives(w, th, c, next, response);
    }
  }

  lemma RereadGives(w: World, th: Thread, c: Choice, next: Thread, response: CreateResponse)
    requires (th.RereadCreated? || th.RereadUnknown?) && th.local.payment in w.db.payments && Settlement(w, th, next)
    ensures next == CreateDone(th.req, response) <==> Given(w, th, c, response)
  {
    hide Carried, Paid, Open;
  }

  lemma WriteGives(w: World, th: Thread, c: Choice, next: Thread, response: CreateResponse)
    requires Settling(th) && !th.RereadCreated? && !th.RereadUnknown?
    requires th.local.payment in w.db.payments && Settlement(w, th, next)
    ensures next == CreateDone(th.req, response) <==> Given(w, th, c, response)
  {
    if response.Failed? { WriteCauses(w, th, c, response.failure); }
    hide Carried, Cause;
  }

  lemma WriteCauses(w: World, th: Thread, c: Choice, f: Failure)
    requires Settling(th) && !th.RereadCreated? && !th.RereadUnknown? && CreateThread(th)
    ensures Cause(w, th, c, f)
            <==> (th.PersistCreated? && f == Internal && Carried(w, th.local.payment, th.id))
                 || (th.CompleteCanceled? && f == Failure.Refused(th.code))
  {
    hide Carried, Paid, Open;
  }

  lemma BeginResponds(w: World, th: Thread, c: Choice, response: CreateResponse)
    requires WorldOK(w) && ThreadOK(w, th) && Accepts(th, c) && CreateThread(th)
    requires !InTx(th) && !Calling(th) && !Settling(th) && !th.OpenLocal?
    ensures Perform(w, th, c).thread == CreateDone(th.req, response) <==> Given(w, th, c, response)
  {
    hide WorldOK, OwnsAt, Owns, Settled;
    if th.req.Key() in w.db.requests { AtRequest(w, th.req.Key()); }
  }

  lemma OpenMeans(db: Store, slot: Slot)
    ensures Open(db, slot) <==> !Settled(db, slot)
  {
  }

  lemma TxResponds(w: World, th: Thread, c: Choice, response: CreateResponse)
    requires CreateThread(th) && WorldOK(w) && ThreadOK(w, th) && Accepts(th, c) && (InTx(th) || th.OpenLocal?)
    ensures Perform(w, th, c).thread == CreateDone(th.req, response) <==> Given(w, th, c, response)
  {
    hide WorldOK, Given, Perform;
    if th.TxInsertPayment? {
      InsertResponds(w, th, c, response);
    } else {
      hide ThreadOK;
      if th.OpenLocal? {
        WholeResponds(w, th, c, response);
      } else {
        StatementResponds(w, th, c, response);
      }
    }
  }

  lemma InsertResponds(w: World, th: Thread, c: Choice, response: CreateResponse)
    requires WorldOK(w) && ThreadOK(w, th) && Accepts(th, c) && CreateThread(th) && th.TxInsertPayment?
    ensures Perform(w, th, c).thread == CreateDone(th.req, response) <==> Given(w, th, c, response)
  {
    hide WorldOK, Perform, Given, Accepts;
    ViolationIsActive(w, NewPayment(th.req.slot, th.account, th.attempt, th.req.input));
    OpenMeans(w.db, th.req.slot);
    InsertNext(w, th, c);
    GivenInserting(w, th, c, response);
    hide ThreadOK, Settled, Open, InsertViolates, NewPayment;
  }

  lemma InsertNext(w: World, th: Thread, c: Choice)
    requires Accepts(th, c) && th.TxInsertPayment?
    ensures var row := NewPayment(th.req.slot, th.account, th.attempt, th.req.input);
            Perform(w, th, c).thread == if InsertViolates(w.db, row) then Fail(th.req, ActiveAttemptExists)
                                        else TxInsertOperation(th.req, c.p, row)
  {
    hide InsertViolates, NewPayment;
  }

  lemma GivenInserting(w: World, th: Thread, c: Choice, response: CreateResponse)
    requires th.TxInsertPayment?
    ensures Given(w, th, c, response) <==> response == Failed(ActiveAttemptExists) && Open(w.db, th.req.slot)
  {
    hide Carried, Paid, Open;
  }

  lemma WholeResponds(w: World, th: Thread, c: Choice, response: CreateResponse)
    requires WorldOK(w) && Accepts(th, c) && CreateThread(th) && th.OpenLocal?
    ensures Perform(w, th, c).thread == CreateDone(th.req, response) <==> Given(w, th, c, response)
  {
    hide Perform, Given;
    NextIsLength(w, th.req.slot);
    ViolationIsActive(w, NewPayment(th.req.slot, th.account, NextAttemptNumber(w.db, th.req.slot), th.req.input));
    OpenMeans(w.db, th.req.slot);
    PaidMeans(w.db, th.req.slot);
    hide WorldOK, OrderHasSucceededPayment, NextAttemptNumber;
    WholeNext(w, th, c);
    GivenWhole(w, th, c, response);
    hide Settled, Open, InsertViolates, Paid, NewPayment, Accepts;
  }

  lemma WholeNext(w: World, th: Thread, c: Choice)
    requires Accepts(th, c) && th.OpenLocal?
    ensures var next := Perform(w, th, c).thread;
            var row := NewPayment(th.req.slot, th.account, NextAttemptNumber(w.db, th.req.slot), th.req.input);
            if !c.Atomic? then next.TxCheckPaid?
            else if OrderHasSucceededPayment(w.db, th.req.slot) then next == Fail(th.req, OrderAlreadySucceeded)
            else if th.req.Key() in w.db.requests then next.RaceReread?
            else if InsertViolates(w.db, row) then next == Fail(th.req, ActiveAttemptExists)
            else next.Credentials?
  {
    hide OrderHasSucceededPayment, InsertViolates, NewPayment, NewOperation, NextAttemptNumber, InsertLocal, Issue;
  }

  lemma GivenWhole(w: World, th: Thread, c: Choice, response: CreateResponse)
    requires th.OpenLocal?
    ensures Given(w, th, c, response) <==>
              && c.Atomic?
              && (|| (response == Failed(OrderAlreadySucceeded) && Paid(w.db, th.req.slot))
                  || (response == Failed(ActiveAttemptExists) && !Paid(w.db, th.req.slot)
                      && th.req.Key() !in w.db.requests && Open(w.db, th.req.slot)))
  {
    hide Carried, Paid, Open;
  }

  lemma PaidMeans(db: Store, slot: Slot)
    ensures Paid(db, slot) <==> OrderHasSucceededPayment(db, slot)
  {
  }

  lemma StatementResponds(w: World, th: Thread, c: Choice, response: CreateResponse)
    requires CreateThread(th) && Accepts(th, c) && InTx(th) && !th.TxInsertPayment?
    ensures Perform(w, th, c).thread == CreateDone(th.req, response) <==> Given(w, th, c, response)
  {
    PaidMeans(w.db, th.req.slot);
    hide Perform, Given, Accepts, Paid, OrderHasSucceededPayment;
    StatementNext(w, th, c);
    GivenInTx(w, th, c, response);
  }

  lemma StatementNext(w: World, th: Thread, c: Choice)
    requires Accepts(th, c) && InTx(th) && !th.TxInsertPayment?
    ensures var next := Perform(w, th, c).thread;
            if th.TxCheckPaid? && OrderHasSucceededPayment(w.db, th.req.slot) then next == Fail(th.req, OrderAlreadySucceeded)
            else !next.CreateDone?
  {
    hide InsertViolates, OrderHasSucceededPayment, NextAttemptNumber;
    hide PerformBegin, PerformCall, PerformSettle, PerformGet, NewPayment, NewOperation;
  }

  lemma GivenInTx(w: World, th: Thread, c: Choice, response: CreateResponse)
    requires InTx(th) && !th.TxInsertPayment?
    ensures Given(w, th, c, response) <==>
              th.TxCheckPaid? && response == Failed(OrderAlreadySucceeded) && Paid(w.db, th.req.slot)
  {
    hide Carried, Paid, Open;
  }

  // ---- over runs ----

  /** At step j request t is answered like this, or dies: a failed re-read leaves the race unresolved. */
  ghost predicate AnsweredAt(r: Execution, j: nat, t: nat, response: CreateResponse)
    requires |r.states| == |r.labels| + 1
  {
    && j < |r.labels| && t in r.states[j].threads && CreateThread(r.states[j].threads[t])
    && var th, l := r.states[j].threads[t], r.labels[j];
       || (l.Step? && l.t == t && Given(r.states[j].world, th, l.choice, response))
       || (l == Die(t) && response == Failed(if th.RaceReread? then KeyRace else Internal))
  }

  lemma ResponseStep(s: State, l: Label, t: nat)
    requires Inv(s) && Enabled(s, l) && t in Apply(s, l).threads && Apply(s, l).threads[t].CreateDone?
    ensures t in s.threads && CreateThread(s.threads[t])
    ensures var th, response := s.threads[t], Apply(s, l).threads[t].response;
            || th == Apply(s, l).threads[t]
            || (l.Step? && l.t == t && Given(s.world, th, l.choice, response))
            || (l == Die(t) && response == Failed(if th.RaceReread? then KeyRace else Internal))
  {
    hide Inv, Perform, Accepts, Fresh, Unblocked, Given;
    if l.Step? && l.t == t {
      InvParts(s, t);
      hide WorldOK, ThreadOK;
      StepKeepsRequest(s.world, s.threads[t], l.choice);
      RespondsExactly(s.world, s.threads[t], l.choice, Apply(s, l).threads[t].response);
    }
  }

  /**
   * Every response of every run was given at a step of its request, from the tables as they were at that step: an
   * accepted one with the row then current, a refusal with its cause; or the request died.
   */
  lemma {:induction false} EveryResponseIsGiven(r: Execution, i: nat, t: nat)
    requires ValidRun(r) && i < |r.states| && t in r.states[i].threads && r.states[i].threads[t].CreateDone?
    ensures exists j: nat :: j < i && AnsweredAt(r, j, t, r.states[i].threads[t].response)
  {
    hide Inv, Enabled, Apply, Given;
    if i > 0 {
      RunInv(r, i - 1);
      ResponseStep(r.states[i - 1], r.labels[i - 1], t);
      if r.states[i - 1].threads[t] == r.states[i].threads[t] {
        EveryResponseIsGiven(r, i - 1, t);
      } else {
        assert AnsweredAt(r, i - 1, t, r.states[i].threads[t].response);
      }
    }
  }

  /** A create request that has not passed its locked paid check, or has ended without a payment of its own. */
  predicate Barred(th: Thread): (barred: bool)
    ensures barred ==> CreateThread(th)
  {
    || th.ReadKey? || th.CheckPaid? || th.ReadAccount? || th.OpenLocal? || th.TxCheckPaid? || th.RaceReread? || th.ReplayRead?
    || (th.CreateDone? && (th.response.Accepted? ==> th.response.replayed))
  }

  lemma BarredStep(w: World, th: Thread, c: Choice)
    requires Barred(th) && Accepts(th, c) && Paid(w.db, th.req.slot)
    ensures Barred(Perform(w, th, c).thread) && Perform(w, th, c).thread.req == th.req
    ensures Perform(w, th, c).world.db == w.db
  {
    PaidMeans(w.db, th.req.slot);
    hide Paid, OrderHasSucceededPayment, Perform, Accepts;
    if th.TxCheckPaid? || th.OpenLocal? || th.CheckPaid? {
      CheckBars(w, th, c);
    } else {
      BeginBars(w, th, c);
    }
  }

  lemma CheckBars(w: World, th: Thread, c: Choice)
    requires Accepts(th, c) && (th.TxCheckPaid? || th.OpenLocal? || th.CheckPaid?)
    requires OrderHasSucceededPayment(w.db, th.req.slot)
    ensures var next := Perform(w, th, c).thread;
            next == Fail(th.req, OrderAlreadySucceeded) || (next.TxCheckPaid? && next.req == th.req)
    ensures Perform(w, th, c).world.db == w.db
  {
    hide OrderHasSucceededPayment, PerformCall, PerformSettle, PerformGet, NextAttemptNumber, InsertViolates;
  }

  lemma BeginBars(w: World, th: Thread, c: Choice)
    requires Accepts(th, c) && Barred(th) && !th.TxCheckPaid? && !th.OpenLocal? && !th.CheckPaid?
    ensures Barred(Perform(w, th, c).thread) && Perform(w, th, c).thread.req == th.req
    ensures Perform(w, th, c).world.db == w.db
  {
    hide OrderHasSucceededPayment, PerformTx, PerformCall, PerformSettle, PerformGet;
  }

  ghost predicate Closed(s: State, t: nat) {
    t in s.threads && Barred(s.threads[t]) && Paid(s.world.db, s.threads[t].req.slot)
  }

  lemma ClosedStep(s: State, l: Label, t: nat)
    requires Inv(s) && Enabled(s, l) && Closed(s, t)
    ensures Closed(Apply(s, l), t)
  {
    hide Inv, Perform, Accepts, Fresh, Unblocked, Barred;
    StillPaid(s, l, s.threads[t].req.slot);
    hide Paid;
    if l.Step? && l.t == t {
      BarredStep(s.world, s.threads[t], l.choice);
    } else if l == Die(t) {
      BarredDies(s.threads[t]);
    }
  }

  lemma StillPaid(s: State, l: Label, slot: Slot)
    requires Inv(s) && Enabled(s, l) && Paid(s.world.db, slot)
    ensures Paid(Apply(s, l).world.db, slot)
  {
    hide Inv, Enabled, Apply;
    var p :| p in s.world.db.payments && s.world.db.payments[p].slot == slot && s.world.db.payments[p].status == Succeeded;
    Histories.StepIsLegal(s, l, p);
  }

  lemma BarredDies(th: Thread)
    requires Barred(th) && !Finished(th)
    ensures Barred(Aborted(th)) && Aborted(th).req == th.req
  {
  }

  /**
   * Once an order is paid, a request that has not passed its locked paid check never creates an attempt: it writes
   * nothing, and whatever it answers with a payment is a replay.
   */
  lemma {:induction false} PaidOrderCloses(r: Execution, i: nat, j: nat, t: nat)
    requires ValidRun(r) && i <= j < |r.states| && Closed(r.states[i], t)
    ensures Closed(r.states[j], t)
    ensures forall c :: Enabled(r.states[j], Step(t, c)) ==>
              Apply(r.states[j], Step(t, c)).world.db == r.states[j].world.db
    decreases j - i
  {
    hide Inv, Enabled, Apply, Barred, Paid;
    if i < j {
      PaidOrderCloses(r, i, j - 1, t);
      RunInv(r, j - 1);
      ClosedStep(r.states[j - 1], r.labels[j - 1], t);
    }
    forall c | Enabled(r.states[j], Step(t, c)) ensures Apply(r.states[j], Step(t, c)).world.db == r.states[j].world.db {
      ClosedWrites(r.states[j], t, c);
    }
  }

  lemma ClosedWrites(s: State, t: nat, c: Choice)
    requires Closed(s, t) && Enabled(s, Step(t, c))
    ensures Apply(s, Step(t, c)).world.db == s.world.db
  {
    hide Perform, Accepts, Barred, Paid;
    BarredStep(s.world, s.threads[t], c);
  }

  // ---- a retry ----

  /** The key is bound to this payment with the request's own fingerprint. */
  ghost predicate BoundAlike(w: World, req: CreateRequest, p: Uuid) {
    && req.Key() in w.db.requests && w.db.requests[req.Key()].hash == req.hash
    && w.db.requests[req.Key()].payment == Some(p)
  }

  /** A request on its way to replaying payment p, or done with it. */
  predicate Replaying(th: Thread, p: Uuid): (on: bool)
    ensures on ==> CreateThread(th)
  {
    || th.ReadKey? || th.RaceReread?
    || (th.ReplayRead? && th.p == p)
    || (th.CreateDone? && th.response.Accepted? && th.response.payment == p && th.response.replayed)
  }

  lemma ReplayStep(w: World, th: Thread, c: Choice, p: Uuid)
    requires WorldOK(w) && Accepts(th, c) && Replaying(th, p) && BoundAlike(w, th.req, p)
    ensures Replaying(Perform(w, th, c).thread, p) && Perform(w, th, c).thread.req == th.req
    ensures Perform(w, th, c).world == w
    ensures th.ReadKey? || th.RaceReread? ==> Perform(w, th, c).thread.ReplayRead?
  {
    hide WorldOK, PerformTx, PerformCall, PerformSettle, PerformGet, OrderHasSucceededPayment;
    AtRequest(w, th.req.Key());
  }

  ghost predicate Retrying(s: State, t: nat, p: Uuid) {
    t in s.threads && Replaying(s.threads[t], p) && BoundAlike(s.world, s.threads[t].req, p)
  }

  lemma BoundStays(s: State, l: Label, req: CreateRequest, p: Uuid)
    requires Inv(s) && Enabled(s, l) && BoundAlike(s.world, req, p)
    ensures BoundAlike(Apply(s, l).world, req, p)
  {
    hide Inv, Enabled, Apply;
    Idempotency.KeyStep(s, l, req.Key());
  }

  lemma RetryStep(s: State, l: Label, t: nat, p: Uuid)
    requires Inv(s) && Enabled(s, l) && Retrying(s, t, p) && l != Die(t)
    ensures Retrying(Apply(s, l), t, p)
    ensures l.Step? && l.t == t ==> Apply(s, l).world == s.world
  {
    hide Inv, Perform, Accepts, Fresh, Unblocked, Replaying, BoundAlike;
    BoundStays(s, l, s.threads[t].req, p);
    if l.Step? && l.t == t {
      InvParts(s, t);
      hide WorldOK, ThreadOK;
      ReplayStep(s.world, s.threads[t], l.choice, p);
    }
  }

  /**
   * A retry: a request that reads its key after it was bound to the same fingerprint writes nothing, and unless it dies
   * it is answered with the bound payment, even when the order is paid or has no account any more.
   */
  lemma {:induction false} RetryReplays(r: Execution, i: nat, j: nat, t: nat, p: Uuid)
    requires ValidRun(r) && SurvivesFrom(r, i, j, t) && Retrying(r.states[i], t, p)
    ensures Retrying(r.states[j], t, p)
    ensures j < |r.labels| && r.labels[j].Step? && r.labels[j].t == t ==> r.states[j + 1].world == r.states[j].world
    decreases j - i
  {
    hide Inv, Enabled, Apply, Retrying;
    if i < j {
      RetryReplays(r, i, j - 1, t, p);
      RunInv(r, j - 1);
      RetryStep(r.states[j - 1], r.labels[j - 1], t, p);
    }
    RunInv(r, j);
    if j < |r.labels| && r.labels[j].Step? && r.labels[j].t == t {
      RetryStep(r.states[j], r.labels[j], t, p);
    }
  }
}
