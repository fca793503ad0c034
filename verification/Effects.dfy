/** What one step does to the tables, and that it stays with its request: the rest of the step does not matter for that. */
module Effects {
  import opened Basics
  import opened PaymentStates
  import opened ProviderClient
  import opened Tables
  import opened Protocol

  /** The tables and the record after a step: most steps only read. */
  function WorldAfter(w: World, th: Thread, c: Choice): World
    requires Accepts(th, c)
  {
    match th
    case OpenLocal(req, account) => if c.Atomic? then CreateLocal(w, req, account, c.p, c.o, c.key).world else w
    case TxInsertPayment(_, _, _, _) => Issue(w, c.p, c.p)
    case TxInsertOperation(_, p, _) => Issue(Issue(w, c.o, p), c.key, p)
    case TxCommit(req, l, op) => InsertLocal(w, req, l, op)
    case MarkCreating(_, l) =>
      if CanTransition(l.row.status, Creating) then w.(db := MarkPaymentCreating(w.db, l.payment)) else w
    case StartOperation(_, l) => w.(db := StartPaymentOperation(w.db, l.operation, c.now))
    case CallProvider(req, l) =>
      if c.Reply? then w
      else w.(calls := w.calls[l.operation := CallsOf(w, l.operation) + [RequestOf(req.input, l.row, l.payment, l.providerKey)]])
    case PersistCreated(_, l, id, url) =>
      if ProviderIdTaken(w.db, l.payment, id) then w else w.(db := SetPaymentCreated(w.db, l.payment, id, url, c.nextCheck))
    case PersistUnknown(_, l, _) => w.(db := SetPaymentCreationUnknown(w.db, l.payment, c.nextCheck))
    case PersistCanceled(_, l, _) => w.(db := SetPaymentCanceled(w.db, l.payment, c.now))
    case CompleteCreated(_, l) => Complete(w, l.operation, OpSucceeded, None, c)
    case CompleteUnknown(_, l, code) => Complete(w, l.operation, OpUnknown, Some(code), c)
    case CompleteCanceled(_, l, code) => Complete(w, l.operation, OpFailed, Some(code), c)
    case GetRefresh(_, _, row) =>
      if c.Reply? && row.providerId.Some? && GetResult(row.providerId.value, c.exchange).Ok? then
        var next := InternalStatus(GetResult(row.providerId.value, c.exchange).value.status);
        w.(readings := w.readings + {Reading(row.providerId.value, next)})
      else w
    case GetApply(_, p, _, next) => if c.At? then w.(db := ApplyProviderStatus(w.db, p, next, c.now, c.nextCheck)) else w
    case _ => w
  }

  lemma AfterBegin(w: World, th: Thread, c: Choice)
    requires Accepts(th, c) && !InTx(th) && !Calling(th) && !Settling(th) && !Getting(th)
    ensures PerformBegin(w, th, c).world == WorldAfter(w, th, c)
  {
    hide CreateLocal, StartReplay, OrderHasSucceededPayment;
  }

  lemma AfterTx(w: World, th: Thread, c: Choice)
    requires Accepts(th, c) && InTx(th)
    ensures PerformTx(w, th, c).world == WorldAfter(w, th, c)
  {
    hide InsertLocal, InsertViolates, NextAttemptNumber, OrderHasSucceededPayment, Issue;
  }

  lemma AfterCalling(w: World, th: Thread, c: Choice)
    requires Accepts(th, c) && Calling(th)
    ensures PerformCall(w, th, c).world == WorldAfter(w, th, c)
  {
    hide MarkPaymentCreating, StartPaymentOperation, AfterCall, RequestOf, CanTransition, CallsOf;
  }

  lemma AfterSettling(w: World, th: Thread, c: Choice)
    requires Accepts(th, c) && Settling(th)
    ensures PerformSettle(w, th, c).world == WorldAfter(w, th, c)
  {
    hide SetPaymentCreated, SetPaymentCreationUnknown, SetPaymentCanceled, Complete, ProviderIdTaken, Reread;
  }

  lemma AfterGetting(w: World, th: Thread, c: Choice)
    requires Accepts(th, c) && Getting(th)
    ensures PerformGet(w, th, c).world == WorldAfter(w, th, c)
  {
    hide ApplyProviderStatus, GetPaymentForApplication, GetResult, InternalStatus, CanTransition;
  }

  /** A step writes what its statement writes and nothing else. */
  lemma StepWrites(w: World, th: Thread, c: Choice)
    requires Accepts(th, c)
    ensures Perform(w, th, c).world == WorldAfter(w, th, c)
  {
    hide Accepts, PerformBegin, PerformTx, PerformCall, PerformSettle, PerformGet, WorldAfter;
    if InTx(th) { AfterTx(w, th, c); }
    else if Calling(th) { AfterCalling(w, th, c); }
    else if Settling(th) { AfterSettling(w, th, c); }
    else if Getting(th) { AfterGetting(w, th, c); }
    else { AfterBegin(w, th, c); }
  }

  // ---- a step stays with its request ----

  predicate SameRequest(a: Thread, b: Thread) {
    if CreateThread(a) then CreateThread(b) && b.req == a.req
    else !CreateThread(b) && b.app == a.app && b.p == a.p
  }

  lemma SameBegin(w: World, th: Thread, c: Choice)
    requires Accepts(th, c) && !InTx(th) && !Calling(th) && !Settling(th) && !Getting(th)
    ensures SameRequest(th, PerformBegin(w, th, c).thread)
  {
    hide NextAttemptNumber, InsertViolates, OrderHasSucceededPayment, InsertLocal;
  }

  lemma SameTx(w: World, th: Thread, c: Choice)
    requires Accepts(th, c) && InTx(th)
    ensures SameRequest(th, PerformTx(w, th, c).thread)
  {
    hide InsertLocal, InsertViolates, NextAttemptNumber, OrderHasSucceededPayment;
  }

  lemma SameCall(w: World, th: Thread, c: Choice)
    requires Accepts(th, c) && Calling(th)
    ensures SameRequest(th, PerformCall(w, th, c).thread)
  {
    hide MarkPaymentCreating, StartPaymentOperation, RequestOf, CanTransition;
    if c.Reply? { SameAfterCall(th.req, th.local, c.exchange); }
    hide AfterCall;
  }

  lemma SameAfterCall(req: CreateRequest, l: Local, x: Exchange)
    ensures var th := AfterCall(req, l, x); CreateThread(th) && th.req == req
  {
    hide CreateResult;
  }

  lemma SameSettle(w: World, th: Thread, c: Choice)
    requires Accepts(th, c) && Settling(th)
    ensures SameRequest(th, PerformSettle(w, th, c).thread)
  {
    hide SetPaymentCreated, SetPaymentCreationUnknown, SetPaymentCanceled, CompletePaymentOperation, ProviderIdTaken;
  }

  lemma SameGet(w: World, th: Thread, c: Choice)
    requires Accepts(th, c) && Getting(th)
    ensures SameRequest(th, PerformGet(w, th, c).thread)
  {
    hide ApplyProviderStatus, GetPaymentForApplication, GetResult, CanTransition;
  }

  lemma StepKeepsRequest(w: World, th: Thread, c: Choice)
    requires Accepts(th, c)
    ensures SameRequest(th, Perform(w, th, c).thread)
  {
    hide Accepts, PerformBegin, PerformTx, PerformCall, PerformSettle, PerformGet, SameRequest;
    if InTx(th) { SameTx(w, th, c); }
    else if Calling(th) { SameCall(w, th, c); }
    else if Settling(th) { SameSettle(w, th, c); }
    else if Getting(th) { SameGet(w, th, c); }
    else { SameBegin(w, th, c); }
  }

  // ---- where a request can go ----

  predicate Fails(th: Thread, failures: set<Failure>) {
    th.CreateDone? && th.response.Failed? && th.response.failure in failures
  }

  /** Whether the call was answered, could not be made, or its outcome is unknown. */
  predicate Resolved(th: Thread) {
    th.PersistCreated? || th.PersistUnknown? || th.PersistCanceled?
  }

  /** The control flow of the service: the points that can follow a point. */
  predicate Follows(a: Thread, b: Thread) {
    match a
    case ReadKey(_) => b.CheckPaid? || b.ReplayRead? || Fails(b, {IdempotencyConflict, NotFound})
    case CheckPaid(_) => b.ReadAccount? || Fails(b, {OrderAlreadySucceeded})
    case ReadAccount(_) => b.OpenLocal? || Fails(b, {NoProviderAccount})
    case OpenLocal(_, _) =>
      b.TxCheckPaid? || b.Credentials? || b.RaceReread? || Fails(b, {OrderAlreadySucceeded, ActiveAttemptExists})
    case TxCheckPaid(_, _) => b.TxCheckKey? || Fails(b, {OrderAlreadySucceeded})
    case TxCheckKey(_, _) => b.TxNumber? || b.RaceReread?
    case TxNumber(_, _, _) => b.TxInsertPayment?
    case TxInsertPayment(_, _, _, _) => b.TxInsertOperation? || Fails(b, {ActiveAttemptExists})
    case TxInsertOperation(_, _, _) => b.TxInsertKey?
    case TxInsertKey(_, _, _) => b.TxCommit? || b.RaceReread?
    case TxCommit(_, _, _) => b.Credentials?
    case RaceReread(_) => b.ReplayRead? || Fails(b, {IdempotencyConflict, NotFound, KeyRace})
    case ReplayRead(_, _) => b.CreateDone? && (b.response.Failed? ==> Fails(b, {NotFound}))
    case Credentials(_, _) => b.MarkCreating?
    case MarkCreating(_, _) => b.StartOperation? || Fails(b, {IllegalTransition})
    case StartOperation(_, _) => b.CallProvider?
    case CallProvider(_, _) => b.AwaitAnswer? || b.PersistCanceled?
    case AwaitAnswer(_, _) => Resolved(b)
    case PersistCreated(_, _, _, _) => b.CompleteCreated? || Fails(b, {Internal})
    case PersistUnknown(_, _, _) => b.CompleteUnknown?
    case PersistCanceled(_, _, _) => b.CompleteCanceled?
    case CompleteCreated(_, _) => b.RereadCreated?
    case CompleteUnknown(_, _, _) => b.RereadUnknown?
    case CompleteCanceled(_, _, code) => Fails(b, {Refused(code)})
    case RereadCreated(_, _) => b.CreateDone? && (b.response.Failed? ==> Fails(b, {NotFound}))
    case RereadUnknown(_, _) => b.CreateDone? && (b.response.Failed? ==> Fails(b, {NotFound}))
    case CreateDone(_, _) => false
    case GetRead(_, _) => b.GetRefresh? || b.GetDone?
    case GetRefresh(_, _, _) => b.GetApply? || b.GetDone?
    case GetApply(_, _, _, _) => b.GetReread? || b.GetDone?
    case GetReread(_, _, _) => b.GetDone?
    case GetDone(_, _, _) => false
  }

  lemma FlowBegin(w: World, th: Thread, c: Choice)
    requires Accepts(th, c) && !InTx(th) && !Calling(th) && !Settling(th) && !Getting(th)
    ensures Follows(th, PerformBegin(w, th, c).thread)
  {
    hide NextAttemptNumber, InsertViolates, OrderHasSucceededPayment, InsertLocal, GetPaymentForApplication;
  }

  lemma FlowAtomic(w: World, req: CreateRequest, account: AccountId, c: Choice)
    requires c.Atomic?
    ensures var th := CreateLocal(w, req, account, c.p, c.o, c.key).thread;
            !InTx(th) && (th.Credentials? ==> !OrderHasSucceededPayment(w.db, req.slot))
  {
    hide NextAttemptNumber, InsertViolates, OrderHasSucceededPayment, InsertLocal;
  }

  lemma FlowTx(w: World, th: Thread, c: Choice)
    requires Accepts(th, c) && InTx(th)
    ensures Follows(th, PerformTx(w, th, c).thread)
  {
    hide InsertLocal, InsertViolates, NextAttemptNumber, OrderHasSucceededPayment, Issue;
  }

  lemma FlowCall(w: World, th: Thread, c: Choice)
    requires Accepts(th, c) && Calling(th)
    ensures Follows(th, PerformCall(w, th, c).thread)
  {
    hide MarkPaymentCreating, StartPaymentOperation, RequestOf, CanTransition, CallsOf;
    if c.Reply? { FlowAnswer(th.req, th.local, c.exchange); }
    hide AfterCall;
  }

  lemma FlowAnswer(req: CreateRequest, l: Local, x: Exchange)
    ensures Resolved(AfterCall(req, l, x)) && (x.NotBuilt? ==> AfterCall(req, l, x).PersistCanceled?)
  {
    DefinitiveIsRefusal(x);
    hide CreateResult;
  }

  lemma FlowSettle(w: World, th: Thread, c: Choice)
    requires Accepts(th, c) && Settling(th)
    ensures Follows(th, PerformSettle(w, th, c).thread)
  {
    hide SetPaymentCreated, SetPaymentCreationUnknown, SetPaymentCanceled, Complete, ProviderIdTaken, GetPaymentForApplication;
  }

  lemma FlowGet(w: World, th: Thread, c: Choice)
    requires Accepts(th, c) && Getting(th)
    ensures Follows(th, PerformGet(w, th, c).thread)
  {
    hide ApplyProviderStatus, GetPaymentForApplication, GetResult, InternalStatus, CanTransition;
  }

  /** Every step follows the control flow. */
  lemma StepFollows(w: World, th: Thread, c: Choice)
    requires Accepts(th, c)
    ensures Follows(th, Perform(w, th, c).thread)
  {
    hide Accepts, PerformBegin, PerformTx, PerformCall, PerformSettle, PerformGet, Follows;
    if InTx(th) { FlowTx(w, th, c); }
    else if Calling(th) { FlowCall(w, th, c); }
    else if Settling(th) { FlowSettle(w, th, c); }
    else if Getting(th) { FlowGet(w, th, c); }
    else { FlowBegin(w, th, c); }
  }

  // ---- the record is never read ----

  /** The same tables and random ids, whatever else was recorded. */
  predicate SameTables(a: World, b: World) {
    a.db == b.db && a.issued == b.issued
  }

  predicate SameOutcome(a: Outcome, b: Outcome) {
    SameTables(a.world, b.world) && a.thread == b.thread
  }

  lemma UnreadBegin(w: World, v: World, th: Thread, c: Choice)
    requires SameTables(w, v) && Accepts(th, c) && !InTx(th) && !Calling(th) && !Settling(th) && !Getting(th)
    ensures SameOutcome(PerformBegin(w, th, c), PerformBegin(v, th, c))
  {
    hide NextAttemptNumber, InsertViolates, OrderHasSucceededPayment, NewPayment, NewOperation;
  }

  lemma UnreadTx(w: World, v: World, th: Thread, c: Choice)
    requires SameTables(w, v) && Accepts(th, c) && InTx(th)
    ensures SameOutcome(PerformTx(w, th, c), PerformTx(v, th, c))
  {
    hide NextAttemptNumber, InsertViolates, OrderHasSucceededPayment, NewPayment, NewOperation;
  }

  lemma UnreadCall(w: World, v: World, th: Thread, c: Choice)
    requires SameTables(w, v) && Accepts(th, c) && Calling(th)
    ensures SameOutcome(PerformCall(w, th, c), PerformCall(v, th, c))
  {
    hide MarkPaymentCreating, StartPaymentOperation, RequestOf, AfterCall, CanTransition;
  }

  lemma UnreadSettle(w: World, v: World, th: Thread, c: Choice)
    requires SameTables(w, v) && Accepts(th, c) && Settling(th)
    ensures SameOutcome(PerformSettle(w, th, c), PerformSettle(v, th, c))
  {
    hide SetPaymentCreated, SetPaymentCreationUnknown, SetPaymentCanceled, CompletePaymentOperation, ProviderIdTaken,
      GetPaymentForApplication;
  }

  lemma UnreadGet(w: World, v: World, th: Thread, c: Choice)
    requires SameTables(w, v) && Accepts(th, c) && Getting(th)
    ensures SameOutcome(PerformGet(w, th, c), PerformGet(v, th, c))
  {
    hide ApplyProviderStatus, GetPaymentForApplication, GetResult, InternalStatus, CanTransition;
  }

  lemma UnreadStep(w: World, v: World, th: Thread, c: Choice)
    requires SameTables(w, v) && Accepts(th, c)
    ensures SameOutcome(Perform(w, th, c), Perform(v, th, c))
  {
    hide Accepts, PerformBegin, PerformTx, PerformCall, PerformSettle, PerformGet, SameTables, SameOutcome;
    if InTx(th) { UnreadTx(w, v, th, c); }
    else if Calling(th) { UnreadCall(w, v, th, c); }
    else if Settling(th) { UnreadSettle(w, v, th, c); }
    else if Getting(th) { UnreadGet(w, v, th, c); }
    else { UnreadBegin(w, v, th, c); }
  }

  /** No step depends on the record of what happened: without it the same steps are possible and do the same. */
  lemma RecordUnread(s: State, bare: State, l: Label)
    requires SameTables(s.world, bare.world) && s.threads == bare.threads
    ensures Enabled(s, l) <==> Enabled(bare, l)
    ensures Enabled(s, l) ==>
              Apply(s, l).threads == Apply(bare, l).threads && SameTables(Apply(s, l).world, Apply(bare, l).world)
  {
    hide Perform, Accepts;
    if Enabled(s, l) && l.Step? { UnreadStep(s.world, bare.world, s.threads[l.t], l.choice); }
  }
}
