/**
 * One application's requests neither change nor depend on another's rows, although the status writes filter by
 * payment id alone. The one exception is the provider-id index, which spans applications.
 */
module Isolation {
  import opened Basics
  import opened PaymentStates
  import opened ProviderClient
  import opened Tables
  import opened Protocol
  import opened Effects
  import opened Invariant
  import opened WorldSteps
  import opened Runs
  import opened Histories
  import opened Ledger

  function AppOf(th: Thread): AppId {
    match th
    case GetRead(app, _) => app
    case GetRefresh(app, _, _) => app
    case GetApply(app, _, _, _) => app
    case GetReread(app, _, _) => app
    case GetDone(app, _, _) => app
    case _ => th.req.slot.app
  }

  /** The rows of one application. */
  function Restrict(db: Store, a: AppId): Store {
    Store(map p | p in db.payments && db.payments[p].slot.app == a :: db.payments[p],
          map o | o in db.operations && db.operations[o].payment in db.payments
                  && db.payments[db.operations[o].payment].slot.app == a :: db.operations[o],
          map k | k in db.requests && k.app == a :: db.requests[k])
  }

  /** A thread without the copy of the tables it carries for the record. */
  function Erased(th: Thread): Thread {
    match th
    case TxNumber(req, account, _) => TxNumber(req, account, EMPTY.db)
    case TxInsertPayment(req, account, _, n) => TxInsertPayment(req, account, EMPTY.db, n)
    case _ => th
  }

  datatype View = View(db: Store, threads: map<nat, Thread>)

  /** What an application owns: its rows and its requests in flight. */
  function ViewOf(s: State, a: AppId): View {
    View(Restrict(s.world.db, a), map t | t in s.threads && AppOf(s.threads[t]) == a :: Erased(s.threads[t]))
  }

  // ---- no step changes another application's rows ----

  lemma OwnerRowIsOwn(w: World, th: Thread)
    requires ThreadOK(w, th) && (Calling(th) || Settling(th))
    ensures th.local.payment in w.db.payments && w.db.payments[th.local.payment].slot == th.req.slot
    ensures th.local.operation in w.db.operations && w.db.operations[th.local.operation].payment == th.local.payment
  {
    OwnerOwns(w, th);
    hide ThreadOK;
  }

  lemma OwnerOwns(w: World, th: Thread)
    requires ThreadOK(w, th) && (Calling(th) || Settling(th))
    ensures Owns(w, th.req, th.local)
  {
    hide Owns;
  }

  lemma ApplyRowIsOwn(w: World, th: Thread)
    requires ThreadOK(w, th) && th.GetApply?
    ensures th.p in w.db.payments && w.db.payments[th.p].slot.app == th.app
  {
  }

  lemma PendingRowIsNew(w: World, th: Thread)
    requires ThreadOK(w, th) && (th.TxInsertOperation? || th.TxInsertKey? || th.TxCommit?)
    ensures (if th.TxInsertOperation? then th.p else th.local.payment) !in w.db.payments
  {
    hide Settled;
  }

  lemma TargetIsOwn(w: World, th: Thread, c: Choice)
    requires ThreadOK(w, th) && Accepts(th, c) && TargetOf(th, c) in w.db.payments
    requires Perform(w, th, c).world.db.payments != w.db.payments && !(th.OpenLocal? && c.Atomic?)
    ensures w.db.payments[TargetOf(th, c)].slot.app == AppOf(th)
  {
    hide ThreadOK;
    if Calling(th) || Settling(th) {
      OwnerRowIsOwn(w, th);
      OwnerWrites(w, th, c);
    } else if th.GetApply? {
      ApplyRowIsOwn(w, th);
    } else if th.TxCommit? {
      PendingRowIsNew(w, th);
    } else {
      QuietElsewhere(w, th, c);
    }
  }

  lemma OwnerWrites(w: World, th: Thread, c: Choice)
    requires Accepts(th, c) && (Calling(th) || Settling(th)) && Perform(w, th, c).world.db.payments != w.db.payments
    ensures TargetOf(th, c) == th.local.payment
  {
    hide Perform, RequestOf, ProviderIdTaken;
    StepWrites(w, th, c);
  }

  lemma QuietElsewhere(w: World, th: Thread, c: Choice)
    requires Accepts(th, c) && !Calling(th) && !Settling(th) && !th.GetApply? && !th.TxCommit? && !(th.OpenLocal? && c.Atomic?)
    ensures Perform(w, th, c).world.db.payments == w.db.payments
  {
    hide Perform, CreateLocal, InsertLocal, GetResult;
    StepWrites(w, th, c);
  }

  lemma PaymentsOfOthers(w: World, th: Thread, c: Choice, p: Uuid)
    requires WorldOK(w) && ThreadOK(w, th) && Accepts(th, c) && Fresh(w, c)
    requires p in w.db.payments && w.db.payments[p].slot.app != AppOf(th)
    ensures p in Perform(w, th, c).world.db.payments && Perform(w, th, c).world.db.payments[p] == w.db.payments[p]
  {
    hide WorldOK, Perform, Accepts, ThreadOK, AppOf;
    StepWritesOne(w, th, c);
    if p == TargetOf(th, c) && Perform(w, th, c).world.db.payments != w.db.payments {
      if th.OpenLocal? && c.Atomic? {
        AtPayment(w, p);
      } else {
        TargetIsOwn(w, th, c);
      }
    }
  }

  lemma NewRowIsOwn(w: World, th: Thread, c: Choice, p: Uuid)
    requires WorldOK(w) && ThreadOK(w, th) && Accepts(th, c) && Fresh(w, c)
    requires p in Perform(w, th, c).world.db.payments && p !in w.db.payments
    ensures Perform(w, th, c).world.db.payments[p].slot.app == AppOf(th)
  {
    hide WorldOK, ThreadOK, Perform, Accepts, Fresh;
    Atomicity.NewRow(w, th, c, p);
  }

  /** The payment in a step's claims belongs to the thread's application. */
  lemma ClaimIsOwn(w: World, th: Thread, c: Choice, p: Uuid)
    requires WorldOK(w) && ThreadOK(w, th) && Accepts(th, c) && Fresh(w, c) && StepClaims(th, c).payment == Some(p)
    requires p in w.db.payments
    ensures w.db.payments[p].slot.app == AppOf(th)
  {
    hide WorldOK, ThreadOK, Accepts;
    AtPayment(w, p);
    if Calling(th) || Settling(th) {
      OwnerClaims(th, c);
      hide StepClaims;
      OwnerRowIsOwn(w, th);
    } else if th.TxInsertOperation? || th.TxInsertKey? || th.TxCommit? {
      PendingRowIsNew(w, th);
    }
  }

  lemma KeyIsOwn(th: Thread, c: Choice, k: ClientKey)
    requires StepClaims(th, c).key == Some(k)
    ensures k.app == AppOf(th)
  {
  }

  lemma OwnerClaims(th: Thread, c: Choice)
    requires Calling(th) || Settling(th)
    ensures StepClaims(th, c).payment == Some(th.local.payment)
  {
  }

  lemma OperationsOfOthers(s: State, t: nat, c: Choice, o: Uuid, a: AppId)
    requires Inv(s) && Enabled(s, Step(t, c)) && a != AppOf(s.threads[t])
    ensures o in Restrict(s.world.db, a).operations <==> o in Restrict(Apply(s, Step(t, c)).world.db, a).operations
    ensures o in Restrict(s.world.db, a).operations ==>
              o in Apply(s, Step(t, c)).world.db.operations && Apply(s, Step(t, c)).world.db.operations[o] == s.world.db.operations[o]
  {
    hide WorldOK, ThreadOK, Perform, Accepts, Unblocked, StepClaims, TouchesPayments;
    var w, w', th := s.world, Apply(s, Step(t, c)).world, s.threads[t];
    StepTouches(s, Step(t, c));
    InvStep(s, Step(t, c));
    assert Inv(Apply(s, Step(t, c)));
    if o in w.db.operations {
      AtOperation(w, o);
      var p := w.db.operations[o].payment;
      if w.db.payments[p].slot.app == a {
        PaymentsOfOthers(w, th, c, p);
        if StepClaims(th, c).payment == Some(p) { ClaimIsOwn(w, th, c, p); }
      } else {
        AppStays(s, Step(t, c), p);
      }
    } else if o in w'.db.operations {
      AtOperation(w', o);
      var p := w'.db.operations[o].payment;
      if p in w.db.payments {
        ClaimIsOwn(w, th, c, p);
        AppStays(s, Step(t, c), p);
      } else {
        NewRowIsOwn(w, th, c, p);
      }
    }
  }

  lemma AppStays(s: State, l: Label, p: Uuid)
    requires Inv(s) && Enabled(s, l) && p in s.world.db.payments
    ensures p in Apply(s, l).world.db.payments && Apply(s, l).world.db.payments[p].slot == s.world.db.payments[p].slot
  {
    hide Inv, Enabled, Apply;
    StepIsLegal(s, l, p);
  }

  lemma PaymentsView(s: State, t: nat, c: Choice, a: AppId)
    requires Inv(s) && Enabled(s, Step(t, c)) && a != AppOf(s.threads[t])
    ensures Restrict(Apply(s, Step(t, c)).world.db, a).payments == Restrict(s.world.db, a).payments
  {
    hide WorldOK, ThreadOK, Perform, Accepts, Unblocked;
    var w, w', th := s.world, Apply(s, Step(t, c)).world, s.threads[t];
    forall p | p in w.db.payments ensures p in w'.db.payments && w'.db.payments[p].slot == w.db.payments[p].slot {
      AppStays(s, Step(t, c), p);
    }
    forall p | p in w.db.payments && w.db.payments[p].slot.app == a ensures w'.db.payments[p] == w.db.payments[p] {
      PaymentsOfOthers(w, th, c, p);
    }
    forall p | p in w'.db.payments && p !in w.db.payments ensures w'.db.payments[p].slot.app != a {
      NewRowIsOwn(w, th, c, p);
    }
  }

  lemma RequestsView(s: State, t: nat, c: Choice, a: AppId)
    requires Inv(s) && Enabled(s, Step(t, c)) && a != AppOf(s.threads[t])
    ensures Restrict(Apply(s, Step(t, c)).world.db, a).requests == Restrict(s.world.db, a).requests
  {
    hide WorldOK, ThreadOK, Perform, Accepts, Unblocked, Fresh, StepClaims, TouchesPayments, TouchesOperations;
    var w, w' := s.world, Apply(s, Step(t, c)).world;
    StepTouches(s, Step(t, c));
    forall k | k in w'.db.requests && k !in w.db.requests ensures k.app != a {
      KeyIsOwn(s.threads[t], c, k);
    }
  }

  lemma OperationsView(s: State, t: nat, c: Choice, a: AppId)
    requires Inv(s) && Enabled(s, Step(t, c)) && a != AppOf(s.threads[t])
    ensures Restrict(Apply(s, Step(t, c)).world.db, a).operations == Restrict(s.world.db, a).operations
  {
    hide Inv, Enabled, Apply;
    var m, m' := Restrict(s.world.db, a).operations, Restrict(Apply(s, Step(t, c)).world.db, a).operations;
    forall o ensures (o in m <==> o in m') && (o in m ==> m'[o] == m[o]) {
      OperationsOfOthers(s, t, c, o, a);
    }
  }

  lemma AppKept(w: World, th: Thread, c: Choice)
    requires Accepts(th, c)
    ensures AppOf(Perform(w, th, c).thread) == AppOf(th)
  {
    hide Perform, Accepts;
    StepKeepsRequest(w, th, c);
  }

  /** A step of one application's request leaves every row and every request of the others untouched. */
  lemma NoInterference(s: State, t: nat, c: Choice, a: AppId)
    requires Inv(s) && Enabled(s, Step(t, c)) && a != AppOf(s.threads[t])
    ensures ViewOf(Apply(s, Step(t, c)), a) == ViewOf(s, a)
  {
    hide Inv, Restrict, Perform, Erased, AppOf, Accepts, Fresh, Unblocked;
    PaymentsView(s, t, c, a);
    OperationsView(s, t, c, a);
    RequestsView(s, t, c, a);
    AppKept(s.world, s.threads[t], c);
  }

  // ---- what a request answers depends on its own application's rows only ----

  /** The tables as an application alone would see them, without the record of what happened. */
  function Own(w: World, a: AppId): World {
    EMPTY.(db := Restrict(w.db, a))
  }

  lemma ReadsRestrict(db: Store, slot: Slot)
    ensures OrderHasSucceededPayment(Restrict(db, slot.app), slot) <==> OrderHasSucceededPayment(db, slot)
    ensures ActiveAttempt(Restrict(db, slot.app), slot) <==> ActiveAttempt(db, slot)
    ensures forall row: Payment :: row.slot == slot ==> (NumberTaken(Restrict(db, slot.app), row) <==> NumberTaken(db, row))
  {
    var own := Restrict(db, slot.app);
    forall p | p in db.payments && db.payments[p].slot == slot ensures p in own.payments && own.payments[p] == db.payments[p] {}
  }

  lemma NextRestrict(db: Store, slot: Slot)
    ensures NextAttemptNumber(Restrict(db, slot.app), slot) == NextAttemptNumber(db, slot)
  {
    hide NextAttemptNumber;
    var own := Restrict(db, slot.app);
    forall p | p in db.payments && db.payments[p].slot == slot ensures p in own.payments && own.payments[p] == db.payments[p] {}
    var m, n := NextAttemptNumber(own, slot), NextAttemptNumber(db, slot);
    if p :| p in db.payments && db.payments[p].slot == slot && db.payments[p].attempt == n - 1 {
      assert own.payments[p].attempt < m;
    }
    if q :| q in own.payments && own.payments[q].slot == slot && own.payments[q].attempt == m - 1 {
      assert db.payments[q].attempt < n;
    }
  }

  lemma PutRestrict(db: Store, a: AppId, p: Uuid, row: Payment)
    requires p in db.payments && db.payments[p].slot.app == a && row.slot == db.payments[p].slot
    ensures Restrict(PutPayment(db, p, row), a) == PutPayment(Restrict(db, a), p, row)
  {
  }

  lemma PutOpRestrict(db: Store, a: AppId, o: Uuid, op: Operation)
    requires o in db.operations && op.payment == db.operations[o].payment
    requires op.payment in db.payments && db.payments[op.payment].slot.app == a
    ensures Restrict(PutOperation(db, o, op), a) == PutOperation(Restrict(db, a), o, op)
  {
  }

  lemma InsertRestrictPayments(db: Store, db': Store, slot: Slot, p: Uuid, row: Payment)
    requires row.slot == slot && db'.payments == db.payments[p := row]
    ensures Restrict(db', slot.app).payments == Restrict(db, slot.app).payments[p := row]
  {
  }

  lemma InsertRestrict(w: World, req: CreateRequest, l: Local, op: Operation)
    requires l.row.slot == req.slot && op.payment == l.payment && l.payment !in w.db.payments
    requires forall o :: o in w.db.operations ==> w.db.operations[o].payment != l.payment
    requires l.operation !in w.db.operations
    ensures Restrict(InsertLocal(w, req, l, op).db, req.slot.app)
            == InsertLocal(Own(w, req.slot.app), req, l, op).db
  {
    var a := req.slot.app;
    var x, y := Restrict(InsertLocal(w, req, l, op).db, a), InsertLocal(Own(w, a), req, l, op).db;
    assert x.payments == y.payments by { InsertRestrictPayments(w.db, InsertLocal(w, req, l, op).db, req.slot, l.payment, l.row); }
    assert x.requests == y.requests;
    InsertRestrictOperations(w.db, a, l, op, InsertLocal(w, req, l, op).db.requests);
  }

  lemma InsertRestrictOperations(db: Store, a: AppId, l: Local, op: Operation, requests: map<ClientKey, IdempotencyRequest>)
    requires l.row.slot.app == a && op.payment == l.payment && l.payment !in db.payments && l.operation !in db.operations
    requires forall o :: o in db.operations ==> db.operations[o].payment != l.payment
    ensures Restrict(Store(db.payments[l.payment := l.row], db.operations[l.operation := op], requests), a).operations
            == Restrict(db, a).operations[l.operation := op]
  {
  }

  /** The provider-id index answers the same on the application's own rows. */
  ghost predicate NoForeignId(w: World, th: Thread) {
    th.PersistCreated? ==>
      (ProviderIdTaken(w.db, th.local.payment, th.id) <==> ProviderIdTaken(Restrict(w.db, AppOf(th)), th.local.payment, th.id))
  }

  ghost predicate SameForOwn(w: World, th: Thread, c: Choice, out: Outcome, own: Outcome) {
    own.world.db == Restrict(out.world.db, AppOf(th)) && Erased(own.thread) == Erased(out.thread)
  }

  lemma OwnBegin(w: World, th: Thread, c: Choice)
    requires WorldOK(w) && Accepts(th, c) && Fresh(w, c)
    requires th.ReadKey? || th.CheckPaid? || th.ReadAccount? || th.RaceReread? || th.ReplayRead? || (th.OpenLocal? && c.Go?)
    ensures SameForOwn(w, th, c, PerformBegin(w, th, c), PerformBegin(Own(w, AppOf(th)), th, c))
  {
    hide WorldOK, OrderHasSucceededPayment;
    ReadsRestrict(w.db, th.req.slot);
    hide ActiveAttempt, NumberTaken;
  }

  lemma OwnAtomic(w: World, th: Thread, c: Choice)
    requires WorldOK(w) && Fresh(w, c) && th.OpenLocal? && c.Atomic?
    ensures SameForOwn(w, th, c, PerformBegin(w, th, c), PerformBegin(Own(w, AppOf(th)), th, c))
  {
    hide WorldOK, OrderHasSucceededPayment, NextAttemptNumber, ActiveAttempt, NumberTaken, Restrict;
    ReadsRestrict(w.db, th.req.slot);
    NextRestrict(w.db, th.req.slot);
    KeyRestrict(w.db, th.req.Key());
    var row := NewPayment(th.req.slot, th.account, NextAttemptNumber(w.db, th.req.slot), th.req.input);
    FreshRows(w, c);
    InsertRestrict(w, th.req, Local(c.p, row, c.o, c.key), NewOperation(c.p, c.key, th.req.hash, th.req.input));
    hide InsertLocal;
    IssueDb(InsertLocal(w, th.req, Local(c.p, row, c.o, c.key), NewOperation(c.p, c.key, th.req.hash, th.req.input)), c);
  }

  lemma IssueDb(w: World, c: Choice)
    requires c.Atomic?
    ensures Issue(Issue(Issue(w, c.p, c.p), c.o, c.p), c.key, c.p).db == w.db
  {
  }

  lemma KeyRestrict(db: Store, k: ClientKey)
    ensures k in Restrict(db, k.app).requests <==> k in db.requests
    ensures k in db.requests ==> Restrict(db, k.app).requests[k] == db.requests[k]
  {
  }

  lemma FreshRows(w: World, c: Choice)
    requires WorldOK(w) && c.Atomic? && Fresh(w, c)
    ensures c.p !in w.db.payments && c.o !in w.db.operations
    ensures forall o :: o in w.db.operations ==> w.db.operations[o].payment != c.p
  {
    hide WorldOK;
    if c.p in w.db.payments { AtPayment(w, c.p); }
    if c.o in w.db.operations { AtOperation(w, c.o); }
    forall o | o in w.db.operations ensures w.db.operations[o].payment != c.p {
      AtOperation(w, o);
      AtPayment(w, w.db.operations[o].payment);
    }
  }

  lemma OwnCommit(w: World, th: Thread, c: Choice)
    requires WorldOK(w) && ThreadOK(w, th) && Accepts(th, c) && th.TxCommit?
    ensures SameForOwn(w, th, c, PerformTx(w, th, c), PerformTx(Own(w, AppOf(th)), th, c))
  {
    hide WorldOK, Restrict, InsertLocal, Settled;
    forall o | o in w.db.operations ensures w.db.operations[o].payment != th.local.payment {
      AtOperation(w, o);
    }
    InsertRestrict(w, th.req, th.local, th.op);
  }

  lemma OwnTx(w: World, th: Thread, c: Choice)
    requires WorldOK(w) && ThreadOK(w, th) && Accepts(th, c) && InTx(th)
    ensures SameForOwn(w, th, c, PerformTx(w, th, c), PerformTx(Own(w, AppOf(th)), th, c))
  {
    hide WorldOK, OrderHasSucceededPayment, NextAttemptNumber, ActiveAttempt, NumberTaken, Restrict, InsertLocal, ThreadOK;
    if th.TxCommit? {
      hide SameForOwn, PerformTx;
      OwnCommit(w, th, c);
    } else {
      ReadsRestrict(w.db, th.req.slot);
      NextRestrict(w.db, th.req.slot);
      KeyRestrict(w.db, th.req.Key());
    }
  }

  lemma OwnCall(w: World, th: Thread, c: Choice)
    requires ThreadOK(w, th) && Accepts(th, c) && Calling(th)
    ensures SameForOwn(w, th, c, PerformCall(w, th, c), PerformCall(Own(w, AppOf(th)), th, c))
  {
    if th.MarkCreating? || th.StartOperation? {
      hide Accepts, PerformCall, SameForOwn, Own, AppOf;
      OwnerRowIsOwn(w, th);
      hide ThreadOK;
      if th.MarkCreating? { OwnMark(w, th, c); } else { OwnStart(w, th, c); }
    } else {
      hide ThreadOK, CreateResult, RequestOf, Restrict;
    }
  }

  lemma OwnMark(w: World, th: Thread, c: Choice)
    requires Accepts(th, c) && th.MarkCreating?
    requires th.local.payment in w.db.payments && w.db.payments[th.local.payment].slot == th.req.slot
    ensures SameForOwn(w, th, c, PerformCall(w, th, c), PerformCall(Own(w, AppOf(th)), th, c))
  {
    hide Restrict, CanTransition;
    PaymentInRestrict(w.db, AppOf(th), th.local.payment);
    PutRestrict(w.db, AppOf(th), th.local.payment, w.db.payments[th.local.payment].(status := Creating));
  }

  lemma OwnStart(w: World, th: Thread, c: Choice)
    requires Accepts(th, c) && th.StartOperation?
    requires th.local.payment in w.db.payments && w.db.payments[th.local.payment].slot == th.req.slot
    requires th.local.operation in w.db.operations && w.db.operations[th.local.operation].payment == th.local.payment
    ensures SameForOwn(w, th, c, PerformCall(w, th, c), PerformCall(Own(w, AppOf(th)), th, c))
  {
    hide Restrict;
    InRestrict(w.db, AppOf(th), th.local.payment, th.local.operation);
    var op := w.db.operations[th.local.operation];
    PutOpRestrict(w.db, AppOf(th), th.local.operation,
                  op.(status := OpInProgress, startedAt := Some(c.now), attemptCount := op.attemptCount + 1));
  }

  lemma PaymentInRestrict(db: Store, a: AppId, p: Uuid)
    requires p in db.payments && db.payments[p].slot.app == a
    ensures p in Restrict(db, a).payments && Restrict(db, a).payments[p] == db.payments[p]
  {
  }

  lemma InRestrict(db: Store, a: AppId, p: Uuid, o: Uuid)
    requires p in db.payments && db.payments[p].slot.app == a && o in db.operations && db.operations[o].payment == p
    ensures p in Restrict(db, a).payments && Restrict(db, a).payments[p] == db.payments[p]
    ensures o in Restrict(db, a).operations && Restrict(db, a).operations[o] == db.operations[o]
  {
  }

  lemma OwnPersistCreated(w: World, th: Thread, c: Choice)
    requires ThreadOK(w, th) && c.At? && th.PersistCreated? && NoForeignId(w, th)
    ensures SameForOwn(w, th, c, PerformSettle(w, th, c), PerformSettle(Own(w, AppOf(th)), th, c))
  {
    hide ProviderIdTaken, Restrict;
    OwnerRowIsOwn(w, th);
    hide ThreadOK;
    InRestrict(w.db, AppOf(th), th.local.payment, th.local.operation);
    PutRestrict(w.db, AppOf(th), th.local.payment,
                w.db.payments[th.local.payment].(status := Pending, providerId := Some(th.id), checkoutUrl := Some(th.url),
                                                 nextCheckAt := Some(c.nextCheck)));
  }

  lemma OwnPersistFailed(w: World, th: Thread, c: Choice)
    requires ThreadOK(w, th) && c.At? && (th.PersistUnknown? || th.PersistCanceled?)
    ensures SameForOwn(w, th, c, PerformSettle(w, th, c), PerformSettle(Own(w, AppOf(th)), th, c))
  {
    hide Restrict;
    OwnerRowIsOwn(w, th);
    hide ThreadOK;
    InRestrict(w.db, AppOf(th), th.local.payment, th.local.operation);
    var row := w.db.payments[th.local.payment];
    if th.PersistUnknown? {
      PutRestrict(w.db, AppOf(th), th.local.payment, row.(status := CreationUnknown, nextCheckAt := Some(c.nextCheck)));
    } else {
      PutRestrict(w.db, AppOf(th), th.local.payment, row.(status := Canceled, completedAt := Some(c.now), nextCheckAt := None));
    }
  }

  lemma OwnReread(w: World, th: Thread, c: Choice)
    requires ThreadOK(w, th) && Accepts(th, c) && (th.RereadCreated? || th.RereadUnknown?)
    ensures SameForOwn(w, th, c, PerformSettle(w, th, c), PerformSettle(Own(w, AppOf(th)), th, c))
  {
    hide Restrict;
    OwnerRowIsOwn(w, th);
    hide ThreadOK;
    InRestrict(w.db, AppOf(th), th.local.payment, th.local.operation);
  }

  lemma OwnSettle(w: World, th: Thread, c: Choice)
    requires ThreadOK(w, th) && Accepts(th, c) && Settling(th) && NoForeignId(w, th)
    ensures SameForOwn(w, th, c, PerformSettle(w, th, c), PerformSettle(Own(w, AppOf(th)), th, c))
  {
    hide ThreadOK, Accepts, NoForeignId, PerformSettle, SameForOwn, Own, AppOf;
    OwnChoice(th, c);
    if th.CompleteCreated? || th.CompleteUnknown? || th.CompleteCanceled? { OwnCompleting(w, th, c); }
    else if th.RereadCreated? || th.RereadUnknown? { OwnReread(w, th, c); }
    else if th.PersistCreated? { OwnPersistCreated(w, th, c); }
    else { OwnPersistFailed(w, th, c); }
  }

  lemma OwnChoice(th: Thread, c: Choice)
    requires Accepts(th, c) && Settling(th)
    ensures th.PersistCreated? || th.PersistUnknown? || th.PersistCanceled? ==> c.At?
    ensures th.CompleteCreated? || th.CompleteUnknown? || th.CompleteCanceled? ==> c.At? || c.Swallowed?
  {
  }

  lemma OwnCompleting(w: World, th: Thread, c: Choice)
    requires ThreadOK(w, th) && Accepts(th, c) && (th.CompleteCreated? || th.CompleteUnknown? || th.CompleteCanceled?)
    ensures SameForOwn(w, th, c, PerformSettle(w, th, c), PerformSettle(Own(w, AppOf(th)), th, c))
  {
    hide ThreadOK, PerformSettle, SameForOwn, Own, AppOf;
    OwnerRowIsOwn(w, th);
    if th.CompleteCreated? { OwnCreated(w, th, c); }
    else if th.CompleteUnknown? { OwnUnknown(w, th, c); }
    else { OwnCanceled(w, th, c); }
  }

  ghost predicate OwnerRow(w: World, th: Thread)
    requires Settling(th)
  {
    && th.local.operation in w.db.operations && w.db.operations[th.local.operation].payment in w.db.payments
    && w.db.payments[w.db.operations[th.local.operation].payment].slot == th.req.slot
  }

  lemma OwnCreated(w: World, th: Thread, c: Choice)
    requires th.CompleteCreated? && Accepts(th, c) && OwnerRow(w, th)
    ensures SameForOwn(w, th, c, PerformSettle(w, th, c), PerformSettle(Own(w, AppOf(th)), th, c))
  {
    hide Complete, Restrict;
    OwnComplete(w, th.local, AppOf(th), OpSucceeded, None, c);
  }

  lemma OwnUnknown(w: World, th: Thread, c: Choice)
    requires th.CompleteUnknown? && Accepts(th, c) && OwnerRow(w, th)
    ensures SameForOwn(w, th, c, PerformSettle(w, th, c), PerformSettle(Own(w, AppOf(th)), th, c))
  {
    hide Complete, Restrict;
    OwnComplete(w, th.local, AppOf(th), OpUnknown, Some(th.code), c);
  }

  lemma OwnCanceled(w: World, th: Thread, c: Choice)
    requires th.CompleteCanceled? && Accepts(th, c) && OwnerRow(w, th)
    ensures SameForOwn(w, th, c, PerformSettle(w, th, c), PerformSettle(Own(w, AppOf(th)), th, c))
  {
    hide Complete, Restrict;
    OwnComplete(w, th.local, AppOf(th), OpFailed, Some(th.code), c);
  }

  lemma OwnComplete(w: World, l: Local, a: AppId, status: OperationStatus, code: Option<ErrorCode>, c: Choice)
    requires c.At? || c.Swallowed?
    requires l.operation in w.db.operations && w.db.operations[l.operation].payment in w.db.payments
    requires w.db.payments[w.db.operations[l.operation].payment].slot.app == a
    ensures Complete(Own(w, a), l.operation, status, code, c).db == Restrict(Complete(w, l.operation, status, code, c).db, a)
  {
    if c.At? {
      PutOpRestrict(w.db, a, l.operation,
                    w.db.operations[l.operation].(status := status, completedAt := Some(c.now), lastError := Some(code)));
    }
  }

  lemma OwnGet(w: World, th: Thread, c: Choice)
    requires ThreadOK(w, th) && Accepts(th, c) && Getting(th)
    ensures SameForOwn(w, th, c, PerformGet(w, th, c), PerformGet(Own(w, AppOf(th)), th, c))
  {
    hide ThreadOK, PerformGet, SameForOwn, Own, Accepts, AppOf;
    if th.GetApply? {
      ApplyRowIsOwn(w, th);
      OwnApply(w, th, c);
    } else if th.GetRefresh? {
      OwnRefresh(w, th, c);
    } else {
      OwnGetReads(w, th, c);
    }
  }

  lemma OwnRefresh(w: World, th: Thread, c: Choice)
    requires Accepts(th, c) && th.GetRefresh?
    ensures SameForOwn(w, th, c, PerformGet(w, th, c), PerformGet(Own(w, AppOf(th)), th, c))
  {
    hide GetResult, InternalStatus, CanTransition, Restrict;
  }

  lemma OwnGetReads(w: World, th: Thread, c: Choice)
    requires Accepts(th, c) && (th.GetRead? || th.GetReread?)
    ensures SameForOwn(w, th, c, PerformGet(w, th, c), PerformGet(Own(w, AppOf(th)), th, c))
  {
    hide Restrict, GetPaymentForApplication;
    ReadRestrict(w.db, th.p, th.app);
  }

  lemma ReadRestrict(db: Store, p: Uuid, a: AppId)
    ensures GetPaymentForApplication(Restrict(db, a), p, a) == GetPaymentForApplication(db, p, a)
  {
  }

  lemma OwnApply(w: World, th: Thread, c: Choice)
    requires Accepts(th, c) && th.GetApply? && th.p in w.db.payments && w.db.payments[th.p].slot.app == th.app
    ensures SameForOwn(w, th, c, PerformGet(w, th, c), PerformGet(Own(w, AppOf(th)), th, c))
  {
    hide Restrict;
    PaymentInRestrict(w.db, th.app, th.p);
    if c.At? {
      var row := w.db.payments[th.p];
      PutRestrict(w.db, AppOf(th), th.p, row.(status := th.next, nextCheckAt := Some(c.nextCheck),
                  completedAt := if th.next.Terminal() then Some(c.now) else row.completedAt));
    }
  }
  /** A step does to its application's rows, and answers, exactly what it would if no other application existed. */
  lemma StepOnOwnRows(w: World, th: Thread, c: Choice)
    requires WorldOK(w) && ThreadOK(w, th) && Accepts(th, c) && Fresh(w, c) && NoForeignId(w, th)
    ensures SameForOwn(w, th, c, Perform(w, th, c), Perform(Own(w, AppOf(th)), th, c))
  {
    hide WorldOK, ThreadOK, SameForOwn, PerformBegin, PerformTx, PerformCall, PerformSettle, PerformGet, Own;
    if InTx(th) { OwnTx(w, th, c); }
    else if Calling(th) { OwnCall(w, th, c); }
    else if Settling(th) { OwnSettle(w, th, c); }
    else if Getting(th) { OwnGet(w, th, c); }
    else if th.OpenLocal? && c.Atomic? { OwnAtomic(w, th, c); }
    else { OwnBegin(w, th, c); }
  }

  /** The condition is exact: when only a foreign row holds the id, the answer differs. */
  lemma ForeignIdInterferes(w: World, th: Thread, c: Choice)
    requires Accepts(th, c) && th.PersistCreated? && !NoForeignId(w, th)
    ensures Perform(w, th, c).thread == Fail(th.req, Internal)
    ensures Perform(Own(w, AppOf(th)), th, c).thread == CompleteCreated(th.req, th.local)
  {
    hide ProviderIdTaken;
    ForeignOnly(w.db, AppOf(th), th.local.payment, th.id);
  }

  lemma ForeignOnly(db: Store, a: AppId, p: Uuid, id: ProviderId)
    ensures ProviderIdTaken(Restrict(db, a), p, id) ==> ProviderIdTaken(db, p, id)
  {
  }

  // ---- two runs ----

  lemma ErasedSame(w: World, x: Thread, y: Thread, c: Choice)
    requires Erased(x) == Erased(y) && Accepts(x, c)
    ensures Accepts(y, c) && AppOf(x) == AppOf(y) && ClaimsOf(x) == ClaimsOf(y)
    ensures Perform(w, x, c).world == Perform(w, y, c).world
    ensures Erased(Perform(w, x, c).thread) == Erased(Perform(w, y, c).thread)
  {
    hide Perform, Accepts, AppOf, ClaimsOf, Erased;
    ErasedKind(x, y);
    if x.TxNumber? {
      ErasedNumber(w, x, y, c);
    } else if x.TxInsertPayment? {
      ErasedInsert(w, x, y, c);
    }
  }

  lemma ErasedKind(x: Thread, y: Thread)
    requires Erased(x) == Erased(y)
    ensures x == y || (x.TxNumber? && y.TxNumber?) || (x.TxInsertPayment? && y.TxInsertPayment?)
  {
  }

  lemma ErasedNumber(w: World, x: Thread, y: Thread, c: Choice)
    requires x.TxNumber? && y.TxNumber? && Erased(x) == Erased(y) && Accepts(x, c)
    ensures Accepts(y, c) && AppOf(x) == AppOf(y) && ClaimsOf(x) == ClaimsOf(y)
    ensures Perform(w, x, c).world == Perform(w, y, c).world
    ensures Erased(Perform(w, x, c).thread) == Erased(Perform(w, y, c).thread)
  {
    hide NextAttemptNumber, PerformBegin, PerformCall, PerformSettle, PerformGet;
  }

  lemma ErasedInsert(w: World, x: Thread, y: Thread, c: Choice)
    requires x.TxInsertPayment? && y.TxInsertPayment? && Erased(x) == Erased(y) && Accepts(x, c)
    ensures Accepts(y, c) && AppOf(x) == AppOf(y) && ClaimsOf(x) == ClaimsOf(y)
    ensures Perform(w, x, c).world == Perform(w, y, c).world
    ensures Erased(Perform(w, x, c).thread) == Erased(Perform(w, y, c).thread)
  {
    hide InsertViolates;
  }

  lemma ClaimsOfErased(th: Thread)
    ensures ClaimsOf(Erased(th)) == ClaimsOf(th) && AppOf(Erased(th)) == AppOf(th)
    ensures ClaimsOf(th).slot.Some? ==> ClaimsOf(th).slot.value.app == AppOf(th)
    ensures ClaimsOf(th).key.Some? ==> ClaimsOf(th).key.value.app == AppOf(th)
  {
  }

  lemma SameUnblocked(s1: State, s2: State, t: nat, c: Choice, a: AppId)
    requires ViewOf(s1, a) == ViewOf(s2, a) && t in s1.threads && t in s2.threads
    requires AppOf(s1.threads[t]) == a && Erased(s1.threads[t]) == Erased(s2.threads[t]) && Unblocked(s1, t, c)
    ensures Unblocked(s2, t, c)
  {
    hide Restrict, Erased, ClaimsOf, AppOf;
    var x, y := s1.threads[t], s2.threads[t];
    SameOpen(x, y);
    forall u | u in s2.threads && u != t
      ensures (y.OpenLocal? ==> ClaimsOf(s2.threads[u]).slot != Some(y.req.slot))
           && ((y.OpenLocal? && c.Atomic?) || y.TxInsertKey? ==> ClaimsOf(s2.threads[u]).key != Some(y.req.Key()))
    {
      ClaimsOfErased(s2.threads[u]);
      if AppOf(s2.threads[u]) == a {
        assert u in ViewOf(s2, a).threads && u in ViewOf(s1, a).threads;
        ClaimsOfErased(s1.threads[u]);
      }
    }
  }

  lemma SameOpen(x: Thread, y: Thread)
    requires Erased(x) == Erased(y)
    ensures (x.OpenLocal? || x.TxInsertKey? || y.OpenLocal? || y.TxInsertKey?) ==> x == y && x.req.slot.app == AppOf(x)
  {
  }

  /**
   * Two runs: states that agree on an application's rows and requests still agree after the same step of one of its
   * requests, whatever the other applications' rows are.
   */
  lemma TwoRuns(s1: State, s2: State, t: nat, c: Choice, a: AppId)
    requires Inv(s1) && Inv(s2) && ViewOf(s1, a) == ViewOf(s2, a)
    requires t in s1.threads && AppOf(s1.threads[t]) == a && Enabled(s1, Step(t, c)) && Fresh(s2.world, c)
    requires t in s2.threads && AppOf(s2.threads[t]) == a
    requires NoForeignId(s1.world, s1.threads[t]) && NoForeignId(s2.world, s2.threads[t])
    ensures Enabled(s2, Step(t, c))
    ensures ViewOf(Apply(s1, Step(t, c)), a) == ViewOf(Apply(s2, Step(t, c)), a)
  {
    hide WorldOK, ThreadOK, Perform, Accepts, Fresh, Unblocked, Restrict, Erased, AppOf, NoForeignId, ClaimsOf;
    var x, y := s1.threads[t], s2.threads[t];
    assert t in ViewOf(s1, a).threads && t in ViewOf(s2, a).threads;
    assert Erased(x) == Erased(y);
    SameUnblocked(s1, s2, t, c, a);
    StepBoth(s1.world, s2.world, x, y, c, a);
    AppKept(s1.world, x, c);
    AppKept(s2.world, y, c);
    SameViewAfter(s1, s2, t, c, a);
  }

  lemma StepBoth(w1: World, w2: World, x: Thread, y: Thread, c: Choice, a: AppId)
    requires WorldOK(w1) && WorldOK(w2) && ThreadOK(w1, x) && ThreadOK(w2, y) && Erased(x) == Erased(y)
    requires Restrict(w1.db, a) == Restrict(w2.db, a) && AppOf(x) == a && AppOf(y) == a
    requires Accepts(x, c) && Fresh(w1, c) && Fresh(w2, c) && NoForeignId(w1, x) && NoForeignId(w2, y)
    ensures Accepts(y, c)
    ensures Restrict(Perform(w1, x, c).world.db, a) == Restrict(Perform(w2, y, c).world.db, a)
    ensures Erased(Perform(w1, x, c).thread) == Erased(Perform(w2, y, c).thread)
  {
    hide WorldOK, ThreadOK, Perform, Accepts, Fresh, Restrict, Erased, AppOf, NoForeignId;
    ErasedSame(Own(w1, a), x, y, c);
    StepOnOwnRows(w1, x, c);
    StepOnOwnRows(w2, y, c);
    assert Own(w1, a) == Own(w2, a);
  }

  lemma SameViewAfter(s1: State, s2: State, t: nat, c: Choice, a: AppId)
    requires ViewOf(s1, a) == ViewOf(s2, a) && Enabled(s1, Step(t, c)) && Enabled(s2, Step(t, c))
    requires var o1, o2 := Perform(s1.world, s1.threads[t], c), Perform(s2.world, s2.threads[t], c);
      && Restrict(o1.world.db, a) == Restrict(o2.world.db, a) && Erased(o1.thread) == Erased(o2.thread)
      && AppOf(o1.thread) == a && AppOf(o2.thread) == a
    ensures ViewOf(Apply(s1, Step(t, c)), a) == ViewOf(Apply(s2, Step(t, c)), a)
  {
    hide Perform, Accepts, Fresh, Unblocked, Restrict, Erased, AppOf;
    var v1, v2 := ViewOf(s1, a).threads, ViewOf(s2, a).threads;
    var r1, r2 := ViewOf(Apply(s1, Step(t, c)), a).threads, ViewOf(Apply(s2, Step(t, c)), a).threads;
    forall u ensures (u in r1 <==> u in r2) && (u in r1 ==> r1[u] == r2[u]) {
      assert u in v1 <==> u in v2;
      assert u in v1 ==> v1[u] == v2[u];
    }
  }
}
