/** Every step of every request keeps the invariant. */
module Steps {
  import opened Basics
  import opened PaymentStates
  import opened ProviderClient
  import opened Tables
  import opened Protocol
  import opened Invariant
  import opened WorldSteps

  ghost predicate Within(a: Claims, b: Claims) {
    (a.payment.None? || a.payment == b.payment) && (a.slot.None? || a.slot == b.slot) && (a.key.None? || a.key == b.key)
  }

  /** What one step must achieve. */
  ghost predicate GoodStep(w: World, th: Thread, c: Choice, out: Outcome) {
    && WorldOK(out.world) && ThreadOK(out.world, out.thread)
    && Touches(w, out.world, StepClaims(th, c))
    && Within(ClaimsOf(out.thread), StepClaims(th, c))
  }

  lemma TouchesMore(w: World, w': World, c: Claims)
    requires Touches(w, w', NOTHING)
    ensures Touches(w, w', c)
  {
  }

  /** A step that writes no row. */
  lemma QuietStep(w: World, th: Thread, c: Choice, out: Outcome)
    requires WorldOK(w) && OnlyRecords(w, out.world) && ThreadOK(out.world, out.thread)
    requires Within(ClaimsOf(out.thread), StepClaims(th, c))
    ensures GoodStep(w, th, c, out)
  {
    hide WorldOK, ThreadOK, Touches;
    RecordKeeps(w, out.world);
    RecordTouches(w, out.world);
    TouchesMore(w, out.world, StepClaims(th, c));
  }

  // ---- before and after createLocal ----

  lemma StartReplayOK(w: World, req: CreateRequest, record: IdempotencyRequest)
    requires WorldOK(w) && req.Key() in w.db.requests && w.db.requests[req.Key()] == record
    ensures ThreadOK(w, StartReplay(req, record)) && ClaimsOf(StartReplay(req, record)) == NOTHING
  {
    hide WorldOK;
    AtRequest(w, req.Key());
  }

  lemma ReplayOK(w: World, req: CreateRequest, p: Uuid)
    requires WorldOK(w) && ThreadOK(w, ReplayRead(req, p))
    ensures ThreadOK(w, PerformBegin(w, ReplayRead(req, p), Go).thread)
  {
    hide WorldOK;
    AtRequest(w, req.Key());
  }

  lemma PendingAfterDraw(w: World, req: CreateRequest, account: AccountId, p: Uuid, o: Uuid, key: Uuid)
    requires WorldOK(w) && Fresh(w, Atomic(p, o, key)) && Settled(w.db, req.slot)
    ensures var row := NewPayment(req.slot, account, |AttemptsOf(w, req.slot)| + 1, req.input);
            Pending2(Issue(Issue(Issue(w, p, p), o, p), key, p), req, Local(p, row, o, key),
                     NewOperation(p, key, req.hash, req.input))
  {
    hide WorldOK, Settled;
    if p in w.db.payments { AtPayment(w, p); }
    if o in w.db.operations { AtOperation(w, o); }
  }

  lemma IssueIsRecord(w: World, p: Uuid, o: Uuid, key: Uuid)
    requires Fresh(w, Atomic(p, o, key))
    ensures OnlyRecords(w, Issue(Issue(Issue(w, p, p), o, p), key, p))
  {
  }

  lemma InsertedOwner(w: World, req: CreateRequest, l: Local, op: Operation)
    requires CanInsert(w, req, l, op)
    ensures OwnsAt(InsertLocal(w, req, l, op), req, l, Created, OpPending, 0)
  {
    hide WorldOK, Settled;
    Domains(w);
    assert CallsOf(InsertLocal(w, req, l, op), l.operation) == [];
  }

  lemma TouchesTwice(w: World, v: World, u: World, c: Claims)
    requires OnlyRecords(w, v) && Touches(v, u, c)
    ensures Touches(w, u, c)
  {
    forall o ensures CallsOf(v, o) == CallsOf(w, o) {}
    forall slot ensures AttemptsOf(v, slot) == AttemptsOf(w, slot) {}
    assert TouchesPayments(w, u, c) by { hide TouchesOperations, TouchesRest; }
  }

  /** createLocal as one step. */
  lemma AtomicStep(w: World, req: CreateRequest, account: AccountId, c: Choice)
    requires WorldOK(w) && c.Atomic? && Fresh(w, c)
    ensures GoodStep(w, OpenLocal(req, account), c, CreateLocal(w, req, account, c.p, c.o, c.key))
  {
    hide WorldOK, Settled, InsertViolates, NextAttemptNumber, InsertLocal, OnlyRecords, GoodStep, OrderHasSucceededPayment;
    var th := OpenLocal(req, account);
    var out := CreateLocal(w, req, account, c.p, c.o, c.key);
    NextIsLength(w, req.slot);
    ViolationIsActive(w, NewPayment(req.slot, account, |AttemptsOf(w, req.slot)| + 1, req.input));
    if out.thread.Credentials? {
      hide CreateLocal;
      AtomicInsert(w, req, account, c, out);
    } else {
      SameIsRecord(w);
      QuietStep(w, th, c, out);
    }
  }

  lemma AtomicInsert(w: World, req: CreateRequest, account: AccountId, c: Choice, out: Outcome)
    requires WorldOK(w) && c.Atomic? && Fresh(w, c) && Settled(w.db, req.slot) && req.Key() !in w.db.requests
    requires var row := NewPayment(req.slot, account, |AttemptsOf(w, req.slot)| + 1, req.input);
             var l, op := Local(c.p, row, c.o, c.key), NewOperation(c.p, c.key, req.hash, req.input);
             out == Outcome(Issue(Issue(Issue(InsertLocal(w, req, l, op), c.p, c.p), c.o, c.p), c.key, c.p), Credentials(req, l))
    ensures GoodStep(w, OpenLocal(req, account), c, out)
  {
    hide WorldOK, Settled, Pending2, OwnsAt, Touches, InsertLocal, OnlyRecords;
    var row := NewPayment(req.slot, account, |AttemptsOf(w, req.slot)| + 1, req.input);
    var l, op := Local(c.p, row, c.o, c.key), NewOperation(c.p, c.key, req.hash, req.input);
    var v := Issue(Issue(Issue(w, c.p, c.p), c.o, c.p), c.key, c.p);
    IssueIsRecord(w, c.p, c.o, c.key);
    RecordKeeps(w, v);
    PendingAfterDraw(w, req, account, c.p, c.o, c.key);
    IssueCommutes(w, req, l, op);
    InsertKeeps(v, req, l, op);
    InsertTouches(v, req, l, op);
    InsertedOwner(v, req, l, op);
    TouchesTwice(w, v, out.world, StepClaims(OpenLocal(req, account), c));
  }

  lemma SameIsRecord(w: World)
    ensures OnlyRecords(w, w)
  {
  }

  lemma IssueCommutes(w: World, req: CreateRequest, l: Local, op: Operation)
    ensures var p, o, k := l.payment, l.operation, l.providerKey;
            Issue(Issue(Issue(InsertLocal(w, req, l, op), p, p), o, p), k, p)
            == InsertLocal(Issue(Issue(Issue(w, p, p), o, p), k, p), req, l, op)
  {
  }

  lemma BeginStep(w: World, th: Thread, c: Choice)
    requires WorldOK(w) && ThreadOK(w, th) && Accepts(th, c) && Fresh(w, c)
    requires th.ReadKey? || th.CheckPaid? || th.ReadAccount? || th.OpenLocal? || th.RaceReread? || th.ReplayRead?
    ensures GoodStep(w, th, c, PerformBegin(w, th, c))
  {
    hide WorldOK, GoodStep, CreateLocal;
    SameIsRecord(w);
    var out := PerformBegin(w, th, c);
    match th
    case OpenLocal(req, account) =>
      if c.Atomic? { AtomicStep(w, req, account, c); } else { QuietStep(w, th, c, out); }
    case ReplayRead(req, p) =>
      ReplayOK(w, req, p);
      QuietStep(w, th, c, out);
    case CheckPaid(_) => QuietStep(w, th, c, out);
    case ReadAccount(_) => QuietStep(w, th, c, out);
    case ReadKey(req) =>
      if req.Key() in w.db.requests { StartReplayOK(w, req, w.db.requests[req.Key()]); }
      QuietStep(w, th, c, out);
    case RaceReread(req) =>
      StartReplayOK(w, req, w.db.requests[req.Key()]);
      QuietStep(w, th, c, out);
  }

  // ---- inside the transaction ----

  lemma DrawPaymentStep(w: World, th: Thread, c: Choice)
    requires WorldOK(w) && ThreadOK(w, th) && th.TxInsertPayment? && c.DrawPayment? && Fresh(w, c)
    ensures GoodStep(w, th, c, PerformTx(w, th, c))
  {
    hide WorldOK, GoodStep, InsertViolates, Settled, PaidOnlyIfSettled;
    var out := PerformTx(w, th, c);
    ViolationIsActive(w, NewPayment(th.req.slot, th.account, th.attempt, th.req.input));
    if c.p in w.db.payments { AtPayment(w, c.p); }
    QuietStep(w, th, c, out);
  }

  lemma DrawOperationStep(w: World, th: Thread, c: Choice)
    requires WorldOK(w) && ThreadOK(w, th) && th.TxInsertOperation? && c.DrawOperation? && Fresh(w, c)
    ensures GoodStep(w, th, c, PerformTx(w, th, c))
  {
    hide WorldOK, GoodStep, Settled;
    var out := PerformTx(w, th, c);
    if c.o in w.db.operations { AtOperation(w, c.o); }
    QuietStep(w, th, c, out);
  }

  lemma CommitStep(w: World, th: Thread, c: Choice)
    requires WorldOK(w) && ThreadOK(w, th) && th.TxCommit? && Accepts(th, c)
    ensures GoodStep(w, th, c, PerformTx(w, th, c))
  {
    hide WorldOK, Settled, Pending2, OwnsAt, Touches, InsertLocal;
    InsertKeeps(w, th.req, th.local, th.op);
    InsertTouches(w, th.req, th.local, th.op);
    InsertedOwner(w, th.req, th.local, th.op);
  }

  lemma NumberStep(w: World, th: Thread, c: Choice)
    requires WorldOK(w) && ThreadOK(w, th) && th.TxNumber? && Accepts(th, c)
    ensures GoodStep(w, th, c, PerformTx(w, th, c))
  {
    hide WorldOK, GoodStep, Settled, PaidOnlyIfSettled, NextAttemptNumber;
    SameIsRecord(w);
    NextIsLength(w, th.req.slot);
    QuietStep(w, th, c, PerformTx(w, th, c));
  }

  lemma TxStep(w: World, th: Thread, c: Choice)
    requires WorldOK(w) && ThreadOK(w, th) && Accepts(th, c) && Fresh(w, c) && InTx(th)
    ensures GoodStep(w, th, c, PerformTx(w, th, c))
  {
    hide WorldOK, GoodStep, ThreadOK, PerformTx;
    match th
    case TxNumber(_, _, _) => NumberStep(w, th, c);
    case TxInsertPayment(_, _, _, _) => DrawPaymentStep(w, th, c);
    case TxInsertOperation(_, _, _) => DrawOperationStep(w, th, c);
    case TxCommit(_, _, _) => CommitStep(w, th, c);
    case _ => TxReadStep(w, th, c);
  }

  lemma TxReadStep(w: World, th: Thread, c: Choice)
    requires WorldOK(w) && ThreadOK(w, th) && Accepts(th, c) && (th.TxCheckPaid? || th.TxCheckKey? || th.TxInsertKey?)
    ensures GoodStep(w, th, c, PerformTx(w, th, c))
  {
    hide WorldOK, GoodStep, Settled, NextAttemptNumber, InsertViolates, Pending2;
    SameIsRecord(w);
    QuietStep(w, th, c, PerformTx(w, th, c));
  }
  // ---- the provider call and its aftermath ----

  /** The owner of a row without a provider id moves it along an edge of the code. */
  ghost predicate OwnerMove(a: Payment, b: Payment) {
    && OwnerChange(a, b) && RowOK(b)
    && b.status != Succeeded && (b.status == Canceled ==> b.providerId.None?)
  }

  lemma OwnerPut(w: World, req: CreateRequest, l: Local, status: Status, op: OperationStatus, calls: nat, row: Payment)
    requires WorldOK(w) && OwnsAt(w, req, l, status, op, calls) && OwnerMove(w.db.payments[l.payment], row)
    requires row.providerId.Some? ==> !ProviderIdTaken(w.db, l.payment, row.providerId.value)
    requires op == OpPending ==> row.status == Creating
    requires op == OpPending || op == OpInProgress
    ensures WorldOK(Putting(w, l.payment, row))
    ensures Touches(w, Putting(w, l.payment, row), Claims(Some(l.payment), None, None))
    ensures row.providerId.None? ==> OwnsAt(Putting(w, l.payment, row), req, l, row.status, op, calls)
    ensures Owns(Putting(w, l.payment, row), req, l)
  {
    hide WorldOK, Touches, ProviderIdTaken, PaymentOK;
    AtPayment(w, l.payment);
    CoupledMove(w, l.payment, row);
    PutPaymentKeeps(w, l.payment, row);
    PutPaymentTouches(w, l.payment, row);
  }

  lemma CoupledMove(w: World, p: Uuid, row: Payment)
    requires p in w.db.payments && PaymentOK(w, p) && OwnerMove(w.db.payments[p], row)
    requires row.providerId.Some? ==> !ProviderIdTaken(w.db, p, row.providerId.value)
    requires var s := w.db.operations[w.opOf[p]].status;
             (s == OpPending && row.status == Creating) || s == OpInProgress
    ensures RowCanReplace(w, p, row)
  {
    hide ProviderIdTaken;
  }

  lemma OwnerPutOp(w: World, req: CreateRequest, l: Local, op: Operation)
    requires WorldOK(w) && Owns(w, req, l) && SameOperation(w.db.operations[l.operation], op)
    requires Coupled(w.db.payments[l.payment], op, |CallsOf(w, l.operation)|)
    ensures WorldOK(PuttingOp(w, l.operation, op))
    ensures Touches(w, PuttingOp(w, l.operation, op), Claims(Some(l.payment), None, None))
    ensures Owns(PuttingOp(w, l.operation, op), req, l)
    ensures |CallsOf(PuttingOp(w, l.operation, op), l.operation)| == |CallsOf(w, l.operation)|
  {
    hide WorldOK, Touches;
    PutOperationKeeps(w, l.operation, op);
    PutOperationTouches(w, l.operation, op);
  }

  lemma MarkStep(w: World, th: Thread, c: Choice)
    requires WorldOK(w) && ThreadOK(w, th) && Accepts(th, c) && th.MarkCreating?
    ensures GoodStep(w, th, c, PerformCall(w, th, c))
  {
    hide WorldOK, Touches, ThreadOK, ClaimsOf, StepClaims, OwnsAt;
    CallingMeans(w, th);
    MarkRows(w, th.req, th.local);
    MarkPerforms(w, th, c);
    var next := StartOperation(th.req, th.local);
    CallingMeans(w.(db := MarkPaymentCreating(w.db, th.local.payment)), next);
    OwnerKeeps(th, c, next);
  }

  /** The local copy says created, so the transition check passes. */
  lemma MarkPerforms(w: World, th: Thread, c: Choice)
    requires Accepts(th, c) && th.MarkCreating? && OwnsAt(w, th.req, th.local, Created, OpPending, 0)
    ensures PerformCall(w, th, c)
            == Outcome(w.(db := MarkPaymentCreating(w.db, th.local.payment)), StartOperation(th.req, th.local))
  {
    hide MarkPaymentCreating;
  }

  lemma MarkRows(w: World, req: CreateRequest, l: Local)
    requires WorldOK(w) && OwnsAt(w, req, l, Created, OpPending, 0)
    ensures var w' := w.(db := MarkPaymentCreating(w.db, l.payment));
            && WorldOK(w') && OwnsAt(w', req, l, Creating, OpPending, 0)
            && Touches(w, w', Claims(Some(l.payment), None, None))
  {
    hide WorldOK, Touches;
    var row := w.db.payments[l.payment];
    AtPayment(w, l.payment);
    OwnerPut(w, req, l, Created, OpPending, 0, row.(status := Creating));
    assert w.(db := MarkPaymentCreating(w.db, l.payment)) == Putting(w, l.payment, row.(status := Creating));
  }

  lemma StartStep(w: World, th: Thread, c: Choice)
    requires WorldOK(w) && ThreadOK(w, th) && Accepts(th, c) && th.StartOperation?
    ensures GoodStep(w, th, c, PerformCall(w, th, c))
  {
    hide WorldOK, Touches, ThreadOK, ClaimsOf, StepClaims, OwnsAt;
    CallingMeans(w, th);
    StartRows(w, th.req, th.local, c.now);
    var w', next := Started(w, th.local, c.now), CallProvider(th.req, th.local);
    StartPerforms(w, th, c);
    CallingMeans(w', next);
    OwnerKeeps(th, c, next);
  }

  ghost function Started(w: World, l: Local, now: Time): World {
    w.(db := StartPaymentOperation(w.db, l.operation, now))
  }

  lemma StartPerforms(w: World, th: Thread, c: Choice)
    requires Accepts(th, c) && th.StartOperation?
    ensures PerformCall(w, th, c) == Outcome(Started(w, th.local, c.now), CallProvider(th.req, th.local))
  {
    hide StartPaymentOperation;
  }

  lemma StartRows(w: World, req: CreateRequest, l: Local, now: Time)
    requires WorldOK(w) && OwnsAt(w, req, l, Creating, OpPending, 0)
    ensures WorldOK(Started(w, l, now)) && OwnsAt(Started(w, l, now), req, l, Creating, OpInProgress, 0)
    ensures Touches(w, Started(w, l, now), Claims(Some(l.payment), None, None))
  {
    hide WorldOK, Touches;
    var op := w.db.operations[l.operation];
    var op' := op.(status := OpInProgress, startedAt := Some(now), attemptCount := op.attemptCount + 1);
    AtPayment(w, l.payment);
    OwnerPutOp(w, req, l, op');
    assert Started(w, l, now) == PuttingOp(w, l.operation, op');
  }

  lemma OwnerKeeps(th: Thread, c: Choice, next: Thread)
    requires (Calling(th) || Settling(th)) && (Calling(next) || Settling(next)) && next.local.payment == th.local.payment
    ensures StepClaims(th, c) == Claims(Some(th.local.payment), None, None) == ClaimsOf(next)
  {
    CallingClaims(th);
    CallingClaims(next);
    hide ClaimsOf;
  }

  lemma SendStep(w: World, th: Thread, c: Choice)
    requires WorldOK(w) && ThreadOK(w, th) && th.CallProvider? && c.Go?
    ensures GoodStep(w, th, c, PerformCall(w, th, c))
  {
    hide WorldOK, Touches, ThreadOK, ClaimsOf, StepClaims, OwnsAt;
    CallingMeans(w, th);
    SendRows(w, th.req, th.local);
    var request := RequestOf(th.req.input, th.local.row, th.local.payment, th.local.providerKey);
    var next := AwaitAnswer(th.req, th.local);
    SendPerforms(w, th);
    CallingMeans(Sending(w, th.local.operation, request), next);
    OwnerKeeps(th, c, next);
  }

  lemma SendPerforms(w: World, th: Thread)
    requires th.CallProvider?
    ensures var request := RequestOf(th.req.input, th.local.row, th.local.payment, th.local.providerKey);
            PerformCall(w, th, Go) == Outcome(Sending(w, th.local.operation, request), AwaitAnswer(th.req, th.local))
  {
    hide RequestOf;
  }

  lemma SendRows(w: World, req: CreateRequest, l: Local)
    requires WorldOK(w) && OwnsAt(w, req, l, Creating, OpInProgress, 0)
    ensures var w' := Sending(w, l.operation, RequestOf(req.input, l.row, l.payment, l.providerKey));
            && WorldOK(w') && OwnsAt(w', req, l, Creating, OpInProgress, 1)
            && Touches(w, w', Claims(Some(l.payment), None, None))
  {
    hide WorldOK, Touches;
    var request := RequestOf(req.input, l.row, l.payment, l.providerKey);
    AtPayment(w, l.payment);
    assert request == Rebuilt(w.db.payments[l.payment], w.db.operations[l.operation]);
    SendKeeps(w, l.operation, request);
    SendTouches(w, l.operation, request);
    assert CallsOf(Sending(w, l.operation, request), l.operation) == CallsOf(w, l.operation) + [request];
  }

  lemma CallStep(w: World, th: Thread, c: Choice)
    requires WorldOK(w) && ThreadOK(w, th) && Accepts(th, c) && Calling(th)
    ensures GoodStep(w, th, c, PerformCall(w, th, c))
  {
    hide WorldOK, GoodStep, OwnsAt, Touches, CreateResult;
    SameIsRecord(w);
    var out := PerformCall(w, th, c);
    match th
    case MarkCreating(_, _) => MarkStep(w, th, c);
    case StartOperation(_, _) => StartStep(w, th, c);
    case CallProvider(_, _) => if c.Go? { SendStep(w, th, c); } else { NotBuiltStep(w, th, c); }
    case _ => QuietStep(w, th, c, out);
  }

  /** A request that cannot be built is refused before anything is sent. */
  lemma NotBuiltStep(w: World, th: Thread, c: Choice)
    requires WorldOK(w) && ThreadOK(w, th) && th.CallProvider? && c == Reply(NotBuilt)
    ensures GoodStep(w, th, c, PerformCall(w, th, c))
  {
    hide WorldOK, GoodStep, OwnsAt;
    SameIsRecord(w);
    assert PerformCall(w, th, c).thread == PersistCanceled(th.req, th.local, InvalidRequest);
    QuietStep(w, th, c, PerformCall(w, th, c));
  }

  lemma PersistingOwns(w: World, th: Thread)
    requires ThreadOK(w, th) && (th.PersistCreated? || th.PersistUnknown?)
    ensures OwnsAt(w, th.req, th.local, Creating, OpInProgress, 1)
  {
    hide OwnsAt;
  }

  lemma PersistCreatedStep(w: World, th: Thread, c: Choice)
    requires WorldOK(w) && ThreadOK(w, th) && Accepts(th, c) && th.PersistCreated?
    requires !ProviderIdTaken(w.db, th.local.payment, th.id)
    ensures GoodStep(w, th, c, PerformSettle(w, th, c))
  {
    hide WorldOK, Touches, ProviderIdTaken, ThreadOK, ClaimsOf, StepClaims;
    PersistingOwns(w, th);
    var row := w.db.payments[th.local.payment];
    var row' := row.(status := Pending, providerId := Some(th.id), checkoutUrl := Some(th.url), nextCheckAt := Some(c.nextCheck));
    AtPayment(w, th.local.payment);
    OwnerPut(w, th.req, th.local, Creating, OpInProgress, 1, row');
    assert PerformSettle(w, th, c) == Outcome(Putting(w, th.local.payment, row'), CompleteCreated(th.req, th.local));
    CreatedThread(Putting(w, th.local.payment, row'), th, c);
  }

  lemma CreatedThread(w: World, th: Thread, c: Choice)
    requires th.PersistCreated? && Owns(w, th.req, th.local) && w.db.payments[th.local.payment].providerId.Some?
    requires w.db.operations[th.local.operation].status == OpInProgress
    ensures var next := CompleteCreated(th.req, th.local);
            ThreadOK(w, next) && StepClaims(th, c) == Claims(Some(th.local.payment), None, None) == ClaimsOf(next)
  {
    hide Owns;
  }

  lemma PersistUnknownStep(w: World, th: Thread, c: Choice)
    requires WorldOK(w) && ThreadOK(w, th) && Accepts(th, c) && th.PersistUnknown?
    ensures GoodStep(w, th, c, PerformSettle(w, th, c))
  {
    hide WorldOK, Touches, ThreadOK, ClaimsOf, StepClaims;
    PersistingOwns(w, th);
    var row := w.db.payments[th.local.payment];
    var row' := row.(status := CreationUnknown, nextCheckAt := Some(c.nextCheck));
    AtPayment(w, th.local.payment);
    OwnerPut(w, th.req, th.local, Creating, OpInProgress, 1, row');
    assert PerformSettle(w, th, c) == Outcome(Putting(w, th.local.payment, row'), CompleteUnknown(th.req, th.local, th.code));
    UnknownThread(Putting(w, th.local.payment, row'), th, c);
  }

  lemma UnknownThread(w: World, th: Thread, c: Choice)
    requires th.PersistUnknown? && OwnsAt(w, th.req, th.local, CreationUnknown, OpInProgress, 1)
    ensures var next := CompleteUnknown(th.req, th.local, th.code);
            ThreadOK(w, next) && StepClaims(th, c) == Claims(Some(th.local.payment), None, None) == ClaimsOf(next)
  {
    hide OwnsAt;
  }

  lemma PersistCanceledStep(w: World, th: Thread, c: Choice, calls: nat)
    requires WorldOK(w) && Accepts(th, c) && th.PersistCanceled? && calls <= 1
    requires OwnsAt(w, th.req, th.local, Creating, OpInProgress, calls)
    ensures GoodStep(w, th, c, PerformSettle(w, th, c))
  {
    hide WorldOK, Touches, ThreadOK, ClaimsOf, StepClaims;
    var row := w.db.payments[th.local.payment];
    var row' := row.(status := Canceled, completedAt := Some(c.now), nextCheckAt := None);
    AtPayment(w, th.local.payment);
    OwnerPut(w, th.req, th.local, Creating, OpInProgress, calls, row');
    assert PerformSettle(w, th, c) == Outcome(Putting(w, th.local.payment, row'), CompleteCanceled(th.req, th.local, th.code));
    hide OwnsAt;
    CanceledThread(Putting(w, th.local.payment, row'), th, c, calls);
  }

  lemma CanceledThread(w: World, th: Thread, c: Choice, calls: nat)
    requires th.PersistCanceled? && calls <= 1 && OwnsAt(w, th.req, th.local, Canceled, OpInProgress, calls)
    ensures var next := CompleteCanceled(th.req, th.local, th.code);
            ThreadOK(w, next) && StepClaims(th, c) == Claims(Some(th.local.payment), None, None) == ClaimsOf(next)
  {
    hide OwnsAt;
  }

  /** The operation row of a settled payment may be completed with the matching status. */
  lemma CompleteRow(w: World, req: CreateRequest, l: Local, op: Operation)
    requires WorldOK(w) && Owns(w, req, l) && w.db.operations[l.operation].status == OpInProgress
    requires SameOperation(w.db.operations[l.operation], op) && op.attemptCount == w.db.operations[l.operation].attemptCount
    requires var row := w.db.payments[l.payment];
             || (op.status == OpSucceeded && row.providerId.Some?)
             || (op.status == OpUnknown && row.status == CreationUnknown)
             || (op.status == OpFailed && row.status == Canceled && row.providerId.None?)
    ensures WorldOK(PuttingOp(w, l.operation, op))
    ensures Touches(w, PuttingOp(w, l.operation, op), Claims(Some(l.payment), None, None))
    ensures Owns(PuttingOp(w, l.operation, op), req, l)
  {
    hide WorldOK, Touches;
    AtPayment(w, l.payment);
    OwnerPutOp(w, req, l, op);
  }

  lemma CompletedWorld(w: World, l: Local, status: OperationStatus, code: Option<ErrorCode>, c: Choice)
    requires c.At? && l.operation in w.db.operations
    ensures Complete(w, l.operation, status, code, c)
            == PuttingOp(w, l.operation, w.db.operations[l.operation].(status := status, completedAt := Some(c.now),
                                                                         lastError := Some(code)))
  {
  }

  lemma CompleteCreatedStep(w: World, th: Thread, c: Choice)
    requires WorldOK(w) && ThreadOK(w, th) && c.At? && th.CompleteCreated?
    ensures GoodStep(w, th, c, PerformSettle(w, th, c))
  {
    hide WorldOK, Touches, Complete;
    var l := th.local;
    CompletedWorld(w, l, OpSucceeded, None, c);
    CompleteRow(w, th.req, l, w.db.operations[l.operation].(status := OpSucceeded, completedAt := Some(c.now), lastError := Some(None)));
    hide Owns;
  }

  lemma CompleteUnknownStep(w: World, th: Thread, c: Choice)
    requires WorldOK(w) && ThreadOK(w, th) && c.At? && th.CompleteUnknown?
    ensures GoodStep(w, th, c, PerformSettle(w, th, c))
  {
    hide WorldOK, Touches, Complete;
    var l := th.local;
    CompletedWorld(w, l, OpUnknown, Some(th.code), c);
    CompleteRow(w, th.req, l, w.db.operations[l.operation].(status := OpUnknown, completedAt := Some(c.now), lastError := Some(Some(th.code))));
    hide Owns;
  }

  lemma CompleteCanceledStep(w: World, th: Thread, c: Choice)
    requires WorldOK(w) && ThreadOK(w, th) && c.At? && th.CompleteCanceled?
    ensures GoodStep(w, th, c, PerformSettle(w, th, c))
  {
    hide WorldOK, Touches, Complete;
    var l := th.local;
    CompletedWorld(w, l, OpFailed, Some(th.code), c);
    CompleteRow(w, th.req, l, w.db.operations[l.operation].(status := OpFailed, completedAt := Some(c.now), lastError := Some(Some(th.code))));
    hide Owns;
  }

  lemma RereadOK(w: World, th: Thread, c: Choice)
    requires WorldOK(w) && ThreadOK(w, th) && Accepts(th, c) && (th.RereadCreated? || th.RereadUnknown?)
    ensures ThreadOK(w, PerformSettle(w, th, c).thread) && ClaimsOf(PerformSettle(w, th, c).thread) == NOTHING
  {
    hide WorldOK;
    AtPayment(w, th.local.payment);
  }

  lemma PersistStep(w: World, th: Thread, c: Choice)
    requires WorldOK(w) && ThreadOK(w, th) && Accepts(th, c)
    requires th.PersistCreated? || th.PersistUnknown? || th.PersistCanceled?
    ensures GoodStep(w, th, c, PerformSettle(w, th, c))
  {
    hide WorldOK, GoodStep, OwnsAt, Owns, Touches, ProviderIdTaken;
    match th
    case PersistCreated(_, l, id, _) =>
      if ProviderIdTaken(w.db, l.payment, id) {
        SameIsRecord(w);
        QuietStep(w, th, c, PerformSettle(w, th, c));
      } else {
        PersistCreatedStep(w, th, c);
      }
    case PersistUnknown(_, _, _) => PersistUnknownStep(w, th, c);
    case PersistCanceled(req, l, _) =>
      PersistCanceledStep(w, th, c, if OwnsAt(w, req, l, Creating, OpInProgress, 0) then 0 else 1);
  }

  lemma UnknownReread(w: World, th: Thread)
    requires th.CompleteUnknown? && ThreadOK(w, th)
    ensures ThreadOK(w, RereadUnknown(th.req, th.local))
  {
  }

  lemma SwallowedComplete(w: World, th: Thread, c: Choice)
    requires WorldOK(w) && ThreadOK(w, th) && c.Swallowed?
    requires th.CompleteCreated? || th.CompleteUnknown? || th.CompleteCanceled?
    ensures GoodStep(w, th, c, PerformSettle(w, th, c))
  {
    hide WorldOK, GoodStep, OwnsAt, Owns;
    SameIsRecord(w);
    if th.CompleteUnknown? { UnknownReread(w, th); }
    QuietStep(w, th, c, PerformSettle(w, th, c));
  }

  lemma RereadStep(w: World, th: Thread, c: Choice)
    requires WorldOK(w) && ThreadOK(w, th) && Accepts(th, c) && (th.RereadCreated? || th.RereadUnknown?)
    ensures GoodStep(w, th, c, PerformSettle(w, th, c))
  {
    hide WorldOK, GoodStep, Reread;
    SameIsRecord(w);
    RereadOK(w, th, c);
    QuietStep(w, th, c, PerformSettle(w, th, c));
  }

  lemma SettleStep(w: World, th: Thread, c: Choice)
    requires WorldOK(w) && ThreadOK(w, th) && Accepts(th, c) && Settling(th)
    ensures GoodStep(w, th, c, PerformSettle(w, th, c))
  {
    hide WorldOK, GoodStep, ThreadOK, PerformSettle;
    match th
    case CompleteCreated(_, _) => if c.At? { CompleteCreatedStep(w, th, c); } else { SwallowedComplete(w, th, c); }
    case CompleteUnknown(_, _, _) => if c.At? { CompleteUnknownStep(w, th, c); } else { SwallowedComplete(w, th, c); }
    case CompleteCanceled(_, _, _) => if c.At? { CompleteCanceledStep(w, th, c); } else { SwallowedComplete(w, th, c); }
    case RereadCreated(_, _) => RereadStep(w, th, c);
    case RereadUnknown(_, _) => RereadStep(w, th, c);
    case _ => PersistStep(w, th, c);
  }

  // ---- get ----

  lemma ApplyStep(w: World, th: Thread, c: Choice)
    requires WorldOK(w) && ThreadOK(w, th) && th.GetApply? && c.At?
    ensures GoodStep(w, th, c, PerformGet(w, th, c))
  {
    hide WorldOK, GoodStep, PerformGet, SnapshotOK;
    ApplySnapshot(w, th);
    hide ThreadOK;
    if w.db.payments[th.p].status.Terminal() { ApplyQuiet(w, th, c); } else { ApplyMoves(w, th, c); }
  }

  lemma ApplySnapshot(w: World, th: Thread)
    requires ThreadOK(w, th) && th.GetApply?
    ensures SnapshotOK(w, th.app, th.p, th.row) && (th.next == Succeeded || th.next == Canceled)
    ensures Reading(th.row.providerId.value, th.next) in w.readings && th.p in w.db.payments
  {
  }

  lemma RereadSnapshot(w: World, th: Thread, c: Choice)
    requires th.GetApply? && SnapshotOK(w, th.app, th.p, th.row)
    ensures var next := GetReread(th.app, th.p, th.row);
            ThreadOK(w, next) && StepClaims(th, c) == NOTHING == ClaimsOf(next)
  {
    hide SnapshotOK;
  }

  lemma ApplyQuiet(w: World, th: Thread, c: Choice)
    requires WorldOK(w) && th.GetApply? && c.At? && Accepts(th, c) && th.p in w.db.payments && th.row.providerId.Some?
    requires SnapshotOK(w, th.app, th.p, th.row)
    requires w.db.payments[th.p].status.Terminal()
    ensures GoodStep(w, th, c, PerformGet(w, th, c))
  {
    hide WorldOK, GoodStep, SnapshotOK, ThreadOK, ClaimsOf, StepClaims;
    SameIsRecord(w);
    RereadSnapshot(w, th, c);
    QuietStep(w, th, c, PerformGet(w, th, c));
  }

  lemma ApplyMoves(w: World, th: Thread, c: Choice)
    requires WorldOK(w) && th.GetApply? && c.At? && Accepts(th, c) && th.p in w.db.payments && th.row.providerId.Some?
    requires SnapshotOK(w, th.app, th.p, th.row)
    requires (th.next == Succeeded || th.next == Canceled) && Reading(th.row.providerId.value, th.next) in w.readings
    requires !w.db.payments[th.p].status.Terminal()
    ensures GoodStep(w, th, c, PerformGet(w, th, c))
  {
    hide WorldOK, Touches, ThreadOK, ClaimsOf, StepClaims;
    var row := w.db.payments[th.p];
    var row' := row.(status := th.next, nextCheckAt := Some(c.nextCheck), completedAt := Some(c.now));
    AtPayment(w, th.p);
    PutPaymentKeeps(w, th.p, row');
    SettleTouches(w, th.p, row');
    assert PerformGet(w, th, c) == Outcome(Putting(w, th.p, row'), GetReread(th.app, th.p, th.row));
    RereadSnapshot(Putting(w, th.p, row'), th, c);
  }
  lemma RefreshStep(w: World, th: Thread, c: Choice)
    requires WorldOK(w) && ThreadOK(w, th) && th.GetRefresh? && Accepts(th, c)
    ensures GoodStep(w, th, c, PerformGet(w, th, c))
  {
    hide WorldOK, GoodStep;
    RefreshThread(w, th, c);
    hide ThreadOK, ClaimsOf, StepClaims, PerformGet;
    QuietStep(w, th, c, PerformGet(w, th, c));
  }

  lemma RefreshThread(w: World, th: Thread, c: Choice)
    requires ThreadOK(w, th) && th.GetRefresh? && Accepts(th, c)
    ensures var out := PerformGet(w, th, c);
            OnlyRecords(w, out.world) && ThreadOK(out.world, out.thread) && Within(ClaimsOf(out.thread), StepClaims(th, c))
  {
    assert SnapshotOK(w, th.app, th.p, th.row);
    hide ThreadOK, ClaimsOf, StepClaims, SnapshotOK, GetResult, InternalStatus, CanTransition;
    RefreshRecords(w, th, c);
    RefreshNext(w, th, c);
    var out := PerformGet(w, th, c);
    hide PerformGet;
    if out.thread.GetApply? {
      RefreshApplies(out.world, th, c, out.thread.next);
    } else {
      RefreshDone(out.world, th, c);
    }
  }

  lemma RefreshRecords(w: World, th: Thread, c: Choice)
    requires th.GetRefresh? && Accepts(th, c) && SnapshotOK(w, th.app, th.p, th.row)
    ensures var w' := PerformGet(w, th, c).world; OnlyRecords(w, w') && SnapshotOK(w', th.app, th.p, th.row)
  {
    hide GetResult, InternalStatus, CanTransition;
  }

  /** What a refresh goes on with: a write of a status just read, or the first read as the answer. */
  lemma RefreshNext(w: World, th: Thread, c: Choice)
    requires th.GetRefresh? && Accepts(th, c) && SnapshotOK(w, th.app, th.p, th.row)
    ensures var out := PerformGet(w, th, c);
            || out.thread == GetDone(th.app, th.p, Some(th.row))
            || (out.thread.GetApply? && out.thread == GetApply(th.app, th.p, th.row, out.thread.next)
                && (out.thread.next == Succeeded || out.thread.next == Canceled)
                && th.row.providerId.Some? && Reading(th.row.providerId.value, out.thread.next) in out.world.readings)
  {
    hide GetResult, InternalStatus;
  }

  lemma RefreshApplies(w: World, th: Thread, c: Choice, next: Status)
    requires th.GetRefresh? && SnapshotOK(w, th.app, th.p, th.row) && (next == Succeeded || next == Canceled)
    requires th.row.providerId.Some? && Reading(th.row.providerId.value, next) in w.readings
    ensures var after := GetApply(th.app, th.p, th.row, next);
            ThreadOK(w, after) && ClaimsOf(after) == NOTHING && Within(NOTHING, StepClaims(th, c))
  {
    hide SnapshotOK;
  }

  lemma RefreshDone(w: World, th: Thread, c: Choice)
    requires th.GetRefresh? && SnapshotOK(w, th.app, th.p, th.row)
    ensures var after := GetDone(th.app, th.p, Some(th.row));
            ThreadOK(w, after) && ClaimsOf(after) == NOTHING && Within(NOTHING, StepClaims(th, c))
  {
  }
  lemma GetReadStep(w: World, th: Thread, c: Choice)
    requires WorldOK(w) && th.GetRead? && Accepts(th, c)
    ensures GoodStep(w, th, c, PerformGet(w, th, c))
  {
    hide WorldOK, GoodStep;
    SameIsRecord(w);
    GetReadSnapshot(w, th, c);
    QuietStep(w, th, c, PerformGet(w, th, c));
  }

  lemma GetReadSnapshot(w: World, th: Thread, c: Choice)
    requires WorldOK(w) && th.GetRead? && Accepts(th, c)
    ensures ThreadOK(w, PerformGet(w, th, c).thread)
  {
    hide WorldOK;
    if th.p in w.db.payments { AtPayment(w, th.p); }
    hide PaymentOK;
  }

  lemma GetRereadStep(w: World, th: Thread, c: Choice)
    requires WorldOK(w) && th.GetReread? && ThreadOK(w, th) && Accepts(th, c)
    ensures GoodStep(w, th, c, PerformGet(w, th, c))
  {
    hide WorldOK, GoodStep;
    SameIsRecord(w);
    QuietStep(w, th, c, PerformGet(w, th, c));
  }

  lemma GetStep(w: World, th: Thread, c: Choice)
    requires WorldOK(w) && ThreadOK(w, th) && Accepts(th, c) && Getting(th)
    ensures GoodStep(w, th, c, PerformGet(w, th, c))
  {
    hide WorldOK, GoodStep, SnapshotOK;
    match th
    case GetRefresh(_, _, _) => RefreshStep(w, th, c);
    case GetApply(_, _, _, _) =>
      if c.At? { ApplyStep(w, th, c); } else { SwallowedApply(w, th, c); }
    case GetReread(_, _, _) => GetRereadStep(w, th, c);
    case _ => GetReadStep(w, th, c);
  }

  lemma SwallowedApply(w: World, th: Thread, c: Choice)
    requires WorldOK(w) && ThreadOK(w, th) && th.GetApply? && c.Swallowed?
    ensures GoodStep(w, th, c, PerformGet(w, th, c))
  {
    hide WorldOK, GoodStep;
    SameIsRecord(w);
    QuietStep(w, th, c, PerformGet(w, th, c));
  }

  // ---- all together ----

  lemma ThreadStep(w: World, th: Thread, c: Choice)
    requires WorldOK(w) && ThreadOK(w, th) && Accepts(th, c) && Fresh(w, c)
    ensures GoodStep(w, th, c, Perform(w, th, c))
  {
    hide WorldOK, ThreadOK, GoodStep, PerformBegin, PerformTx, PerformCall, PerformSettle, PerformGet;
    if InTx(th) { TxStep(w, th, c); }
    else if Calling(th) { CallStep(w, th, c); }
    else if Settling(th) { SettleStep(w, th, c); }
    else if Getting(th) { GetStep(w, th, c); }
    else { BeginStep(w, th, c); }
  }
}
