/**
 * Runs of the statement-level machine that show what the guards do not exclude: a new attempt on a paid order, two
 * payments for it at an honest provider, and one application's row making another's write fail.
 */
module Witness {
  import opened Basics
  import opened PaymentStates
  import opened ProviderClient
  import opened Tables
  import opened Protocol
  import opened Invariant
  import opened ServiceSteps
  import opened Settlement
  import Amounts
  import Isolation
  import HonestRuns

  // ---- reachable states, beside an honest provider or any other ----

  ghost predicate Allowed(h: Shop, e: Event, honest: bool) {
    match e
    case Core(l) => Enabled(h.core, l) && StatementLabel(l) && (honest ==> HonestAnswer(h, l))
    case Make(_, _) => Possible(h, e)
    case Refuse(_) => Possible(h, e)
    case Resolve(_, _) => Possible(h, e)
  }

  ghost function Moved(h: Shop, e: Event): Shop
    requires Allowed(h, e, false)
  {
    match e
    case Core(l) => h.(core := Apply(h.core, l))
    case Make(_, _) => After(h, e)
    case Refuse(_) => After(h, e)
    case Resolve(_, _) => After(h, e)
  }

  ghost predicate Path(r: ShopRun, h: Shop, honest: bool) {
    && |r.states| == |r.events| + 1 && r.states[0] == OPENING && r.states[|r.events|] == h
    && forall i :: 0 <= i < |r.events| ==>
         Allowed(r.states[i], r.events[i], honest) && Allowed(r.states[i], r.events[i], false)
         && r.states[i + 1] == Moved(r.states[i], r.events[i])
  }

  ghost predicate Reachable(h: Shop, honest: bool) {
    exists r :: Path(r, h, honest)
  }

  lemma ReachOpening()
    ensures Reachable(OPENING, true)
  {
    assert Path(ShopRun([OPENING], []), OPENING, true);
  }

  lemma Extend(h: Shop, e: Event, honest: bool)
    requires Reachable(h, honest) && Allowed(h, e, honest) && Allowed(h, e, false)
    ensures Reachable(Moved(h, e), honest)
  {
    hide Allowed, Moved;
    var r :| Path(r, h, honest);
    assert Path(ShopRun(r.states + [Moved(h, e)], r.events + [e]), Moved(h, e), honest);
  }

  /** What an honest provider allows, any provider allows. */
  lemma AnyProvider(h: Shop)
    requires Reachable(h, true)
    ensures Reachable(h, false)
  {
    hide Moved, Allowed;
    var r :| Path(r, h, true);
    assert Path(r, h, false);
  }

  lemma PathIsShopRun(r: ShopRun, h: Shop)
    requires Path(r, h, true)
    ensures ValidShopRun(r) && r.states[|r.events|] == h
  {
    forall i | 0 <= i < |r.events| ensures Possible(r.states[i], r.events[i]) && r.states[i + 1] == After(r.states[i], r.events[i]) {
      HonestMove(r.states[i], r.events[i]);
    }
  }

  lemma HonestMove(h: Shop, e: Event)
    requires Allowed(h, e, true) && Allowed(h, e, false)
    ensures Possible(h, e) && Moved(h, e) == After(h, e)
  {
    hide Enabled, HonestAnswer, Apply;
  }

  ghost predicate StatementRunTo(r: Execution, s: State) {
    && ValidRun(r) && r.states[|r.labels|] == s
    && forall i :: 0 <= i < |r.labels| ==> StatementLabel(r.labels[i])
  }

  /** The core's part of a path is a run of the statement-level machine. */
  lemma {:induction false} CoreOfPath(r: ShopRun, n: nat, honest: bool) returns (e: Execution)
    requires n <= |r.events| && |r.states| == |r.events| + 1 && Path(r, r.states[|r.events|], honest)
    ensures StatementRunTo(e, r.states[n].core)
    decreases n
  {
    hide HonestAnswer, Enabled, Apply;
    if n == 0 {
      e := Execution([INIT], []);
    } else {
      e := CoreOfPath(r, n - 1, honest);
      var h, event := r.states[n - 1], r.events[n - 1];
      if event.Core? {
        e := Execution(e.states + [Apply(h.core, event.move)], e.labels + [event.move]);
      } else {
        CoreUnmoved(h, event);
      }
    }
  }

  lemma CoreUnmoved(h: Shop, e: Event)
    requires Allowed(h, e, false) && !e.Core?
    ensures Moved(h, e).core == h.core
  {
  }

  lemma ReachedByRun(h: Shop, honest: bool) returns (e: Execution)
    requires Reachable(h, honest)
    ensures StatementRunTo(e, h.core)
  {
    hide Allowed, Moved, StatementRunTo;
    var r :| Path(r, h, honest);
    e := CoreOfPath(r, |r.events|, honest);
  }

  // ---- single steps ----

  /** One step of one request, whose outcome is known. */
  lemma Take(h: Shop, honest: bool, t: nat, c: Choice, w: World, next: Thread) returns (h': Shop)
    requires Reachable(h, honest) && Leads(h.core, t, c, w, next) && !c.Atomic?
    requires honest && c.Reply? ==> HonestAnswer(h, Step(t, c))
    ensures h' == h.(core := State(w, h.core.threads[t := next])) && Reachable(h', honest)
  {
    hide Reachable, Enabled, Apply;
    var e := Core(Step(t, c));
    assert Allowed(h, e, honest) && Allowed(h, e, false);
    Extend(h, e, honest);
    h' := Moved(h, e);
  }

  lemma Arrive(h: Shop, honest: bool, t: nat, th: Thread) returns (h': Shop)
    requires Reachable(h, honest) && t !in h.core.threads && (th.ReadKey? || th.GetRead?)
    ensures h' == h.(core := h.core.(threads := h.core.threads[t := th])) && Reachable(h', honest)
  {
    hide Reachable;
    var e := Core(Start(t, th));
    assert Allowed(h, e, honest) && Allowed(h, e, false);
    Extend(h, e, honest);
    h' := Moved(h, e);
  }

  /** No other request holds a lock or an uncommitted key. */
  ghost predicate Alone(s: State, t: nat) {
    forall u :: u in s.threads && u != t ==> ClaimsOf(s.threads[u]).slot.None? && ClaimsOf(s.threads[u]).key.None?
  }

  lemma AloneUnblocked(s: State, t: nat)
    requires Alone(s, t) && t in s.threads
    ensures Unblocked(s, t, Go)
  {
    hide ClaimsOf;
  }

  lemma AloneStays(s: State, t: nat, w: World, next: Thread)
    requires Alone(s, t)
    ensures Alone(State(w, s.threads[t := next]), t)
  {
    hide ClaimsOf;
  }

  /** Request t at a point, the tables and the other requests as they were. */
  ghost function Put(h: Shop, t: nat, th: Thread): Shop {
    h.(core := h.core.(threads := h.core.threads[t := th]))
  }

  ghost function PutWith(h: Shop, t: nat, w: World, th: Thread): Shop {
    h.(core := State(w, h.core.threads[t := th]))
  }

  /** A create request with a new key on an unpaid order gets as far as its locked paid check. */
  lemma Begin(h: Shop, honest: bool, t: nat, req: CreateRequest) returns (h': Shop)
    requires Reachable(h, honest) && t !in h.core.threads && Alone(h.core, t)
    requires req.Key() !in h.core.world.db.requests && !OrderHasSucceededPayment(h.core.world.db, req.slot)
    ensures Reachable(h', honest) && Alone(h'.core, t) && h' == Put(h, t, TxCheckKey(req, 7))
  {
    hide Reachable, OrderHasSucceededPayment, Alone, Leads, HonestAnswer;
    var w := h.core.world;
    h' := BeginOutside(h, honest, t, req);
    AloneStays(h.core, t, w, OpenLocal(req, 7));
    AloneUnblocked(h'.core, t);
    LockStep(h'.core, t, req, 7);
    h' := Take(h', honest, t, Go, w, TxCheckPaid(req, 7));
    TxPaidStep(h'.core, t, req, 7);
    h' := Take(h', honest, t, Go, w, TxCheckKey(req, 7));
    AloneStays(h.core, t, w, TxCheckKey(req, 7));
    assert h'.core.threads == h.core.threads[t := TxCheckKey(req, 7)];
  }

  lemma BeginOutside(h: Shop, honest: bool, t: nat, req: CreateRequest) returns (h': Shop)
    requires Reachable(h, honest) && t !in h.core.threads
    requires req.Key() !in h.core.world.db.requests && !OrderHasSucceededPayment(h.core.world.db, req.slot)
    ensures Reachable(h', honest) && h' == Put(h, t, OpenLocal(req, 7))
  {
    hide Reachable, OrderHasSucceededPayment, Leads, HonestAnswer;
    var w := h.core.world;
    h' := Arrive(h, honest, t, ReadKey(req));
    FindStep(h'.core, t, req);
    h' := Take(h', honest, t, Go, w, CheckPaid(req));
    PaidStep(h'.core, t, req);
    h' := Take(h', honest, t, Go, w, ReadAccount(req));
    AccountStep(h'.core, t, req, Some(7));
    h' := Take(h', honest, t, Account(Some(7)), w, OpenLocal(req, 7));
    assert h'.core.threads == h.core.threads[t := OpenLocal(req, 7)];
  }

  function Drawn(w: World, p: Uuid, o: Uuid, key: Uuid): World {
    w.(issued := w.issued[p := p][o := p][key := p])
  }

  ghost function NewLocal(db: Store, req: CreateRequest, p: Uuid, o: Uuid, key: Uuid): Local {
    Local(p, NewPayment(req.slot, 7, NextAttemptNumber(db, req.slot), req.input), o, key)
  }

  /** From the key check to the commit. */
  lemma Finish(h: Shop, honest: bool, t: nat, req: CreateRequest, p: Uuid, o: Uuid, key: Uuid) returns (h': Shop)
    requires Reachable(h, honest) && t in h.core.threads && h.core.threads[t] == TxCheckKey(req, 7) && Alone(h.core, t)
    requires req.Key() !in h.core.world.db.requests && Settled(h.core.world.db, req.slot)
    requires Fresh(h.core.world, Atomic(p, o, key))
    ensures var l := NewLocal(h.core.world.db, req, p, o, key);
            && Reachable(h', honest)
            && h' == PutWith(h, t, InsertLocal(Drawn(h.core.world, p, o, key), req, l, NewOperation(p, key, req.hash, req.input)),
                             Credentials(req, l))
  {
    hide Reachable, NextAttemptNumber, Alone, InsertLocal, Leads, HonestAnswer, NewPayment, NewOperation, InsertViolates, Settled;
    var l := NewLocal(h.core.world.db, req, p, o, key);
    var op := NewOperation(p, key, req.hash, req.input);
    h' := Inserts(h, honest, t, req, l);
    AloneStays(h.core, t, Drawn(h.core.world, p, o, key), TxInsertKey(req, l, op));
    AloneUnblocked(h'.core, t);
    InsertKeyStep(h'.core, t, req, l, op);
    h' := Take(h', honest, t, Go, h'.core.world, TxCommit(req, l, op));
    CommitStep(h'.core, t, req, l, op);
    h' := Take(h', honest, t, Go, InsertLocal(h'.core.world, req, l, op), Credentials(req, l));
    assert h'.core.threads == h.core.threads[t := Credentials(req, l)];
  }

  lemma Inserts(h: Shop, honest: bool, t: nat, req: CreateRequest, l: Local) returns (h': Shop)
    requires Reachable(h, honest) && t in h.core.threads && h.core.threads[t] == TxCheckKey(req, 7)
    requires req.Key() !in h.core.world.db.requests && Settled(h.core.world.db, req.slot)
    requires Fresh(h.core.world, Atomic(l.payment, l.operation, l.providerKey))
    requires l == NewLocal(h.core.world.db, req, l.payment, l.operation, l.providerKey)
    ensures Reachable(h', honest)
    ensures h' == PutWith(h, t, Drawn(h.core.world, l.payment, l.operation, l.providerKey),
                          TxInsertKey(req, l, NewOperation(l.payment, l.providerKey, req.hash, req.input)))
  {
    hide Reachable, NextAttemptNumber, Leads, HonestAnswer, NewPayment, NewOperation, Settled;
    h' := Numbers(h, honest, t, req);
    h' := InsertsPayment(h', honest, t, req, l);
    InsertOperationStep(h'.core, t, req, l.payment, l.row, l.operation, l.providerKey);
    var next := TxInsertKey(req, l, NewOperation(l.payment, l.providerKey, req.hash, req.input));
    h' := Take(h', honest, t, DrawOperation(l.operation, l.providerKey),
               Drawn(h.core.world, l.payment, l.operation, l.providerKey), next);
    assert h'.core.threads == h.core.threads[t := next];
  }

  lemma Numbers(h: Shop, honest: bool, t: nat, req: CreateRequest) returns (h': Shop)
    requires Reachable(h, honest) && t in h.core.threads && h.core.threads[t] == TxCheckKey(req, 7)
    requires req.Key() !in h.core.world.db.requests
    ensures Reachable(h', honest)
    ensures h' == Put(h, t, TxInsertPayment(req, 7, h.core.world.db, NextAttemptNumber(h.core.world.db, req.slot)))
  {
    hide Reachable, NextAttemptNumber, Leads, HonestAnswer;
    var w, n := h.core.world, NextAttemptNumber(h.core.world.db, req.slot);
    TxKeyStep(h.core, t, req, 7);
    h' := Take(h, honest, t, Go, w, TxNumber(req, 7, w.db));
    NumberStep(h'.core, t, req, 7, w.db);
    h' := Take(h', honest, t, Go, w, TxInsertPayment(req, 7, w.db, n));
    assert h'.core.threads == h.core.threads[t := TxInsertPayment(req, 7, w.db, n)];
  }

  lemma InsertsPayment(h: Shop, honest: bool, t: nat, req: CreateRequest, l: Local) returns (h': Shop)
    requires Reachable(h, honest) && t in h.core.threads
    requires var db := h.core.world.db; h.core.threads[t] == TxInsertPayment(req, 7, db, NextAttemptNumber(db, req.slot))
    requires Settled(h.core.world.db, req.slot) && l.payment !in h.core.world.issued
    requires l == NewLocal(h.core.world.db, req, l.payment, l.operation, l.providerKey)
    ensures Reachable(h', honest)
    ensures h' == PutWith(h, t, h.core.world.(issued := h.core.world.issued[l.payment := l.payment]),
                          TxInsertOperation(req, l.payment, l.row))
  {
    hide Reachable, NextAttemptNumber, Leads, HonestAnswer, NewPayment, InsertViolates, Settled;
    var w := h.core.world;
    NoViolation(w.db, req.slot, req.input);
    InsertPaymentStep(h.core, t, req, 7, w.db, NextAttemptNumber(w.db, req.slot), l.payment);
    h' := Take(h, honest, t, DrawPayment(l.payment), w.(issued := w.issued[l.payment := l.payment]),
               TxInsertOperation(req, l.payment, l.row));
  }

  lemma NoViolation(db: Store, slot: Slot, input: CreateInput)
    requires Settled(db, slot)
    ensures !InsertViolates(db, NewPayment(slot, 7, NextAttemptNumber(db, slot), input))
  {
  }

  // ---- the provider's answers ----

  const PAYMENT_JSON := ApiPayment(9, "pending", false, "1", "RUB", Some("url"))
  const PAID_JSON := ApiPayment(9, "succeeded", true, "1", "RUB", None)
  const MADE: Exchange := Answer(200, "", Some(PAYMENT_JSON))
  const PAID: Exchange := Answer(200, "", Some(PAID_JSON))

  lemma OneRouble()
    ensures Amounts.ParseAmount("1") == Some(100)
  {
    var text := "1";
    OneIsOne(text);
    Amounts.ParseWhole(text);
    hide Amounts.ParseAmount, Value;
  }

  lemma OneIsOne(text: string)
    requires text == "1"
    ensures AllDigits(text) && Value(text) == 1
  {
    assert text[..0] == "";
  }

  lemma Answers()
    ensures CreateResult(MADE) == Ok(ProviderPayment(9, StPending, "url", false, 100, "RUB"))
    ensures GetResult(9, PAID) == Ok(ProviderPayment(9, StSucceeded, "", true, 100, "RUB"))
  {
    hide Amounts.ParseAmount;
    OneRouble();
  }

  function Called(w: World, req: CreateRequest, l: Local): World {
    w.(calls := w.calls[l.operation := CallsOf(w, l.operation) + [RequestOf(req.input, l.row, l.payment, l.providerKey)]])
  }

  /** The tables when the request of a new attempt has been sent. */
  function Sending(w: World, l: Local): World {
    w.(db := StartPaymentOperation(MarkPaymentCreating(w.db, l.payment), l.operation, 0))
  }

  lemma CallOut(h: Shop, honest: bool, t: nat, req: CreateRequest, l: Local) returns (h': Shop)
    requires Reachable(h, honest) && t in h.core.threads && h.core.threads[t] == Credentials(req, l) && l.row.status == Created
    ensures Reachable(h', honest) && h' == PutWith(h, t, Called(Sending(h.core.world, l), req, l), AwaitAnswer(req, l))
  {
    hide Reachable, Leads, HonestAnswer, MarkPaymentCreating, StartPaymentOperation, RequestOf, CallsOf, Sending;
    h' := Prepares(h, honest, t, req, l);
    SendStep(h'.core, t, req, l);
    h' := Take(h', honest, t, Go, Called(Sending(h.core.world, l), req, l), AwaitAnswer(req, l));
    assert h'.core.threads == h.core.threads[t := AwaitAnswer(req, l)];
  }

  lemma Prepares(h: Shop, honest: bool, t: nat, req: CreateRequest, l: Local) returns (h': Shop)
    requires Reachable(h, honest) && t in h.core.threads && h.core.threads[t] == Credentials(req, l) && l.row.status == Created
    ensures Reachable(h', honest) && h' == PutWith(h, t, Sending(h.core.world, l), CallProvider(req, l))
  {
    hide Reachable, Leads, HonestAnswer, MarkPaymentCreating, StartPaymentOperation;
    h' := Marks(h, honest, t, req, l);
    StartStep(h'.core, t, req, l, At(0, 0));
    h' := Take(h', honest, t, At(0, 0), Sending(h.core.world, l), CallProvider(req, l));
    assert h'.core.threads == h.core.threads[t := CallProvider(req, l)];
  }

  lemma Marks(h: Shop, honest: bool, t: nat, req: CreateRequest, l: Local) returns (h': Shop)
    requires Reachable(h, honest) && t in h.core.threads && h.core.threads[t] == Credentials(req, l) && l.row.status == Created
    ensures Reachable(h', honest)
    ensures h' == PutWith(h, t, h.core.world.(db := MarkPaymentCreating(h.core.world.db, l.payment)), StartOperation(req, l))
  {
    hide Reachable, Leads, HonestAnswer, MarkPaymentCreating;
    var w := h.core.world;
    CredentialsStep(h.core, t, req, l);
    h' := Take(h, honest, t, Go, w, MarkCreating(req, l));
    MarkStep(h'.core, t, req, l);
    h' := Take(h', honest, t, Go, w.(db := MarkPaymentCreating(w.db, l.payment)), StartOperation(req, l));
    assert h'.core.threads == h.core.threads[t := StartOperation(req, l)];
  }

  /** The provider answers with payment 9. */
  lemma Answered(h: Shop, honest: bool, t: nat, req: CreateRequest, l: Local) returns (h': Shop)
    requires Reachable(h, honest) && t in h.core.threads && h.core.threads[t] == AwaitAnswer(req, l)
    requires honest ==> l.providerKey in h.provider.made && h.provider.made[l.providerKey] == 9
    ensures Reachable(h', honest) && h' == Put(h, t, PersistCreated(req, l, 9, "url"))
  {
    hide Reachable, Leads, HonestAnswer;
    Answers();
    assert AfterCall(req, l, MADE) == PersistCreated(req, l, 9, "url");
    hide CreateResult, GetResult, AfterCall;
    ServiceSteps.AnswerStep(h.core, t, req, l, MADE);
    if honest { TrueAnswer(h, t); }
    h' := Take(h, honest, t, Reply(MADE), h.core.world, PersistCreated(req, l, 9, "url"));
  }

  lemma TrueAnswer(h: Shop, t: nat)
    requires t in h.core.threads && h.core.threads[t].AwaitAnswer?
    requires var key := h.core.threads[t].local.providerKey; key in h.provider.made && h.provider.made[key] == 9
    ensures HonestAnswer(h, Step(t, Reply(MADE)))
  {
    Answers();
    DefinitiveIsRefusal(MADE);
    hide CreateResult, GetResult;
  }

  /** The owner stores the id it was answered with. */
  lemma Stores(h: Shop, honest: bool, t: nat, req: CreateRequest, l: Local) returns (h': Shop)
    requires Reachable(h, honest) && t in h.core.threads && h.core.threads[t] == PersistCreated(req, l, 9, "url")
    requires !ProviderIdTaken(h.core.world.db, l.payment, 9)
    ensures Reachable(h', honest)
    ensures h' == PutWith(h, t, h.core.world.(db := SetPaymentCreated(h.core.world.db, l.payment, 9, "url", 0)),
                          CompleteCreated(req, l))
  {
    hide Reachable, Leads, HonestAnswer, ProviderIdTaken, SetPaymentCreated;
    CreatedStep(h.core, t, req, l, 9, "url", At(0, 0));
    h' := Take(h, honest, t, At(0, 0), h.core.world.(db := SetPaymentCreated(h.core.world.db, l.payment, 9, "url", 0)),
               CompleteCreated(req, l));
  }

  /** The provider processes the request sent for an operation. */
  lemma Makes(h: Shop, o: Uuid, key: Uuid, id: ProviderId) returns (h': Shop)
    requires Reachable(h, true) && o in h.core.world.db.operations && h.core.world.db.operations[o].providerKey == key
    requires CallsOf(h.core.world, o) != [] && id != NO_ID && id !in h.provider.status
    requires key !in h.provider.made && key !in h.provider.refused
    ensures Reachable(h', true)
    ensures h' == h.(provider := h.provider.(made := h.provider.made[key := id], status := h.provider.status[id := Pending]))
  {
    hide Reachable;
    Extend(h, Make(o, id), true);
    h' := Moved(h, Make(o, id));
  }

  /** A pending provider payment is paid. */
  lemma Pays(h: Shop, id: ProviderId) returns (h': Shop)
    requires Reachable(h, true) && id in h.provider.status && h.provider.status[id] == Pending
    ensures Reachable(h', true) && h' == h.(provider := h.provider.(status := h.provider.status[id := Succeeded]))
  {
    hide Reachable;
    Extend(h, Resolve(id, Succeeded), true);
    h' := Moved(h, Resolve(id, Succeeded));
  }

  /** A get request reads the pending row and learns from the provider that it is paid. */
  lemma Refresh(h: Shop, t: nat, p: Uuid, row: Payment) returns (h': Shop)
    requires Reachable(h, true) && t !in h.core.threads && p in h.core.world.db.payments && h.core.world.db.payments[p] == row
    requires row.status == Pending && row.providerId == Some(9) && row.nextCheckAt == Some(0)
    requires 9 in h.provider.status && h.provider.status[9] == Succeeded
    ensures Reachable(h', true)
    ensures h' == PutWith(h, t, Learned(h.core.world), GetApply(row.slot.app, p, row, Succeeded))
  {
    hide Reachable;
    h' := ReadsPending(h, t, p, row);
    h' := Learns(h', t, p, row);
    assert h'.core.threads == h.core.threads[t := GetApply(row.slot.app, p, row, Succeeded)];
  }

  function Learned(w: World): World {
    w.(readings := w.readings + {Reading(9, Succeeded)})
  }

  lemma ReadsPending(h: Shop, t: nat, p: Uuid, row: Payment) returns (h': Shop)
    requires Reachable(h, true) && t !in h.core.threads && p in h.core.world.db.payments && h.core.world.db.payments[p] == row
    requires row.status == Pending && row.providerId == Some(9) && row.nextCheckAt == Some(0)
    ensures Reachable(h', true) && h' == Put(h, t, GetRefresh(row.slot.app, p, row))
  {
    hide Reachable, Leads, HonestAnswer;
    var app := row.slot.app;
    h' := Arrive(h, true, t, GetRead(app, p));
    GetReadStep(h'.core, t, app, p, At(0, 0));
    h' := Take(h', true, t, At(0, 0), h.core.world, GetRefresh(app, p, row));
    assert h'.core.threads == h.core.threads[t := GetRefresh(app, p, row)];
  }

  lemma Learns(h: Shop, t: nat, p: Uuid, row: Payment) returns (h': Shop)
    requires Reachable(h, true) && t in h.core.threads && h.core.threads[t] == GetRefresh(row.slot.app, p, row)
    requires row.status == Pending && row.providerId == Some(9) && 9 in h.provider.status && h.provider.status[9] == Succeeded
    ensures Reachable(h', true)
    ensures h' == PutWith(h, t, Learned(h.core.world), GetApply(row.slot.app, p, row, Succeeded))
  {
    hide Reachable, Leads, HonestAnswer;
    LearnsStep(h.core, t, row.slot.app, p, row);
    TrueReading(h, t);
    h' := Take(h, true, t, Reply(PAID), Learned(h.core.world), GetApply(row.slot.app, p, row, Succeeded));
  }

  lemma LearnsStep(s: State, t: nat, app: AppId, p: Uuid, row: Payment)
    requires IsAt(s, t, GetRefresh(app, p, row)) && row.status == Pending && row.providerId == Some(9)
    ensures Leads(s, t, Reply(PAID), Learned(s.world), GetApply(app, p, row, Succeeded))
  {
    hide Leads, GetResult, CreateResult;
    Answers();
    ServiceSteps.RefreshStep(s, t, app, p, row, Reply(PAID));
  }

  lemma TrueReading(h: Shop, t: nat)
    requires t in h.core.threads && h.core.threads[t].GetRefresh? && h.core.threads[t].row.providerId == Some(9)
    requires 9 in h.provider.status && h.provider.status[9] == Succeeded
    ensures HonestAnswer(h, Step(t, Reply(PAID)))
  {
    Answers();
    hide CreateResult, GetResult;
  }

  /** The status write of a refresh needs no lock: it runs while another request holds the order. */
  lemma Applies(h: Shop, t: nat, p: Uuid, row: Payment) returns (h': Shop)
    requires Reachable(h, true) && t in h.core.threads && h.core.threads[t] == GetApply(row.slot.app, p, row, Succeeded)
    ensures Reachable(h', true)
    ensures h' == PutWith(h, t, h.core.world.(db := ApplyProviderStatus(h.core.world.db, p, Succeeded, 0, 0)),
                          GetReread(row.slot.app, p, row))
  {
    hide Reachable, Leads, HonestAnswer, ApplyProviderStatus;
    ServiceSteps.ApplyStep(h.core, t, row.slot.app, p, row, Succeeded, At(0, 0));
    h' := Take(h, true, t, At(0, 0), h.core.world.(db := ApplyProviderStatus(h.core.world.db, p, Succeeded, 0, 0)),
               GetReread(row.slot.app, p, row));
  }

  // ---- the runs ----

  const SLOT := Slot(1, 1)
  const INPUT := CreateInput(100, "RUB", "", None, None)
  const FIRST := CreateRequest(SLOT, 1, 0, INPUT)
  const SECOND := CreateRequest(SLOT, 2, 0, INPUT)
  const OTHER := CreateRequest(Slot(2, 1), 1, 0, INPUT)

  /** The first row of the order, and its request's local copies. */
  const CREATED_ROW := NewPayment(SLOT, 7, 1, INPUT)
  const FIRST_LOCAL := Local(1, CREATED_ROW, 2, 3)
  const PENDING_ROW := CREATED_ROW.(status := Pending, providerId := Some(9), checkoutUrl := Some("url"), nextCheckAt := Some(0))
  const PAID_ROW := PENDING_ROW.(status := Succeeded, completedAt := Some(0))

  lemma FirstNumber(slot: Slot)
    ensures NextAttemptNumber(EMPTY.db, slot) == 1
  {
  }

  lemma FirstCommitted() returns (h: Shop)
    ensures Reachable(h, true) && h.provider == OPENING.provider
    ensures h.core.threads == map[0 := Credentials(FIRST, FIRST_LOCAL)]
    ensures h.core.world.db.payments == map[1 := CREATED_ROW]
    ensures 2 in h.core.world.db.operations && h.core.world.db.operations[2].providerKey == 3
    ensures h.core.world.db.requests.Keys == {FIRST.Key()} && h.core.world.issued.Keys == {1, 2, 3}
  {
    hide Reachable, NextAttemptNumber, Alone;
    ReachOpening();
    FirstNumber(SLOT);
    NobodyElse();
    h := Begin(OPENING, true, 0, FIRST);
    h := Finish(h, true, 0, FIRST, 1, 2, 3);
  }

  /** The tables once a request has been sent. */
  lemma SentRows(w: World, req: CreateRequest, l: Local)
    requires l.operation in w.db.operations
    ensures var w' := Called(Sending(w, l), req, l);
            && l.operation in w'.db.operations
            && w'.db.operations[l.operation].providerKey == w.db.operations[l.operation].providerKey
            && CallsOf(w', l.operation) != [] && w'.db.requests == w.db.requests && w'.issued == w.issued && w'.opOf == w.opOf
            && w'.db.payments == MarkPaymentCreating(w.db, l.payment).payments
  {
    hide RequestOf;
  }

  /** The first attempt has been sent. */
  lemma FirstSent() returns (h: Shop)
    ensures Reachable(h, true) && h.provider == OPENING.provider
    ensures h.core.threads == map[0 := AwaitAnswer(FIRST, FIRST_LOCAL)]
    ensures h.core.world.db.payments == map[1 := CREATED_ROW.(status := Creating)]
    ensures 2 in h.core.world.db.operations && h.core.world.db.operations[2].providerKey == 3 && CallsOf(h.core.world, 2) != []
    ensures h.core.world.db.requests.Keys == {FIRST.Key()} && h.core.world.issued.Keys == {1, 2, 3}
  {
    hide Reachable, Called, Sending, CallsOf;
    h := FirstCommitted();
    SentRows(h.core.world, FIRST, FIRST_LOCAL);
    h := CallOut(h, true, 0, FIRST, FIRST_LOCAL);
  }

  lemma NobodyElse()
    ensures Alone(INIT, 0)
  {
  }

  /** ... and answered and stored. */
  lemma FirstAttempt() returns (h: Shop)
    ensures Reachable(h, true) && h.provider == Provider(map[3 := 9], {}, map[9 := Pending])
    ensures h.core.threads == map[0 := CompleteCreated(FIRST, FIRST_LOCAL)]
    ensures h.core.world.db.payments == map[1 := PENDING_ROW]
    ensures h.core.world.db.requests.Keys == {FIRST.Key()} && h.core.world.issued.Keys == {1, 2, 3}
  {
    hide Reachable;
    h := FirstSent();
    h := Makes(h, 2, 3, 9);
    h := Answered(h, true, 0, FIRST, FIRST_LOCAL);
    h := Stores(h, true, 0, FIRST, FIRST_LOCAL);
    assert h.core.threads == map[0 := CompleteCreated(FIRST, FIRST_LOCAL)];
  }

  lemma AloneBeside(s: State, t: nat)
    requires forall u :: u in s.threads && u != t ==> s.threads[u].CompleteCreated? || s.threads[u].GetApply? || s.threads[u].GetReread?
    ensures Alone(s, t)
  {
  }

  const AFTER_FIRST: map<nat, Thread> := map[0 := CompleteCreated(FIRST, FIRST_LOCAL)]
  const WHILE_PAID: map<nat, Thread> := AFTER_FIRST[1 := GetApply(1, 1, PENDING_ROW, Succeeded)]
  const WHILE_RACING: map<nat, Thread> := WHILE_PAID[2 := TxCheckKey(SECOND, 7)][1 := GetReread(1, 1, PENDING_ROW)]

  /** The first attempt is paid, and its refresh is about to write that. */
  lemma PaidAtProvider() returns (h: Shop)
    ensures Reachable(h, true) && h.provider == Provider(map[3 := 9], {}, map[9 := Succeeded])
    ensures h.core.threads == WHILE_PAID && h.core.world.db.payments == map[1 := PENDING_ROW]
    ensures h.core.world.db.requests.Keys == {FIRST.Key()} && h.core.world.issued.Keys == {1, 2, 3}
  {
    hide Reachable;
    h := FirstAttempt();
    h := Pays(h, 9);
    h := Refresh(h, 1, 1, PENDING_ROW);
  }

  lemma PendingIsUnpaid(db: Store)
    requires db.payments == map[1 := PENDING_ROW]
    ensures !OrderHasSucceededPayment(db, SLOT)
  {
  }

  lemma AppliedRow(db: Store)
    requires db.payments == map[1 := PENDING_ROW]
    ensures ApplyProviderStatus(db, 1, Succeeded, 0, 0).payments == map[1 := PAID_ROW]
    ensures ApplyProviderStatus(db, 1, Succeeded, 0, 0).requests == db.requests
  {
  }

  /** ... while a second creation is past its locked paid check; then it is written. */
  lemma RaceState() returns (h: Shop)
    ensures Reachable(h, true) && h.provider == Provider(map[3 := 9], {}, map[9 := Succeeded])
    ensures h.core.threads == WHILE_RACING && h.core.world.db.payments == map[1 := PAID_ROW]
    ensures SECOND.Key() !in h.core.world.db.requests && h.core.world.issued.Keys == {1, 2, 3}
  {
    hide Reachable, Alone, OrderHasSucceededPayment, ApplyProviderStatus;
    h := PaidAtProvider();
    AloneBeside(h.core, 2);
    PendingIsUnpaid(h.core.world.db);
    AppliedRow(h.core.world.db);
    h := Begin(h, true, 2, SECOND);
    h := Applies(h, 1, 1, PENDING_ROW);
  }

  const SECOND_LOCAL := Local(4, NewPayment(SLOT, 7, 2, INPUT), 5, 6)

  lemma SecondNumber(db: Store)
    requires db.payments == map[1 := PAID_ROW]
    ensures NextAttemptNumber(db, SLOT) == 2 && Settled(db, SLOT)
  {
    assert db.payments[1].slot == SLOT;
  }

  /** The second attempt is committed on the paid order. */
  lemma SecondCommitted() returns (h: Shop)
    ensures Reachable(h, true) && h.provider == Provider(map[3 := 9], {}, map[9 := Succeeded])
    ensures 2 in h.core.threads && h.core.threads[2] == Credentials(SECOND, SECOND_LOCAL)
    ensures h.core.world.db.payments == map[1 := PAID_ROW, 4 := SECOND_LOCAL.row]
    ensures 4 in h.core.world.opOf && h.core.world.opOf[4] == 5
    ensures 5 in h.core.world.db.operations && h.core.world.db.operations[5].providerKey == 6
  {
    hide Reachable, Alone, NextAttemptNumber, Settled;
    h := RaceState();
    AloneBeside(h.core, 2);
    SecondNumber(h.core.world.db);
    h := Finish(h, true, 2, SECOND, 4, 5, 6);
    assert h.core.world.db.payments == map[1 := PAID_ROW, 4 := SECOND_LOCAL.row];
  }

  /**
   * The lock does not keep its promise: a run of the statement-level machine, beside an honest provider, reaches a
   * state with a succeeded attempt 1 and an open attempt 2 on one order, created after the success.
   */
  lemma PaidOrderGetsNewAttempt()
    ensures exists e: Execution, s: State, p: Uuid, q: Uuid ::
      && StatementRunTo(e, s) && p in s.world.db.payments && q in s.world.db.payments && p != q
      && s.world.db.payments[p].slot == s.world.db.payments[q].slot
      && s.world.db.payments[p].status == Succeeded && s.world.db.payments[p].attempt == 1
      && s.world.db.payments[q].status == Created && s.world.db.payments[q].attempt == 2
  {
    hide Reachable, StatementRunTo;
    var h := SecondCommitted();
    var e := ReachedByRun(h, true);
    var s := h.core;
    assert s.world.db.payments[1].slot == s.world.db.payments[4].slot;
    assert s.world.db.payments[1].attempt == 1 && s.world.db.payments[4].attempt == 2;
  }

  /** The second attempt is sent, and the provider makes a payment for it too. */
  lemma SecondMade() returns (h: Shop)
    ensures Reachable(h, true)
    ensures h.core.world.db.payments == map[1 := PAID_ROW, 4 := SECOND_LOCAL.row.(status := Creating)]
    ensures 4 in h.core.world.opOf && h.core.world.opOf[4] == 5
    ensures 5 in h.core.world.db.operations && h.core.world.db.operations[5].providerKey == 6
    ensures 6 in h.provider.made && h.provider.made[6] == 10 && 10 in h.provider.status && h.provider.status[10] == Pending
  {
    hide Reachable, Called, Sending, CallsOf;
    h := SecondCommitted();
    SentRows(h.core.world, SECOND, SECOND_LOCAL);
    h := CallOut(h, true, 2, SECOND, SECOND_LOCAL);
    h := Makes(h, 5, 6, 10);
    assert h.core.world.db.payments == map[1 := PAID_ROW, 4 := SECOND_LOCAL.row.(status := Creating)];
  }

  /** Beside an honest provider an order can be charged twice: a run ends with two live provider payments for it. */
  lemma DoubleChargeHappens()
    ensures exists r: ShopRun, p, q :: ValidShopRun(r) && HonestRuns.TwoLive(r.states[|r.events|], SLOT, p, q)
  {
    hide ValidShopRun;
    var h := SecondMade();
    var r :| Path(r, h, true);
    PathIsShopRun(r, h);
    assert ValidShopRun(r) && r.states[|r.events|] == h;
    FirstIsLive(r, h);
    assert HonestRuns.TwoLive(h, SLOT, 1, 4);
  }

  lemma FirstIsLive(r: ShopRun, h: Shop)
    requires ValidShopRun(r) && r.states[|r.events|] == h
    requires 1 in h.core.world.db.payments && h.core.world.db.payments[1].status == Succeeded
    ensures 1 in h.core.world.opOf && h.core.world.opOf[1] in h.core.world.db.operations && LiveAtProvider(h, 1)
  {
    hide Possible, After;
    SucceededIsPaid(r, |r.events|, 1);
  }

  const OTHER_LOCAL := Local(4, NewPayment(Slot(2, 1), 7, 1, INPUT), 5, 6)

  lemma OtherNumber(db: Store)
    requires db.payments == map[1 := PENDING_ROW]
    ensures NextAttemptNumber(db, Slot(2, 1)) == 1 && Settled(db, Slot(2, 1)) && !OrderHasSucceededPayment(db, Slot(2, 1))
  {
  }

  /** Another application's request has been sent. */
  lemma OtherSent() returns (h: Shop)
    ensures Reachable(h, false)
    ensures 1 in h.core.threads && h.core.threads[1] == AwaitAnswer(OTHER, OTHER_LOCAL)
    ensures h.core.world.db.payments == map[1 := PENDING_ROW, 4 := OTHER_LOCAL.row.(status := Creating)]
  {
    hide Reachable, RequestOf, CallsOf;
    h := OtherCommitted();
    h := CallOut(h, false, 1, OTHER, OTHER_LOCAL);
    assert h.core.world.db.payments == map[1 := PENDING_ROW, 4 := OTHER_LOCAL.row.(status := Creating)];
  }

  lemma OtherCommitted() returns (h: Shop)
    ensures Reachable(h, false)
    ensures 1 in h.core.threads && h.core.threads[1] == Credentials(OTHER, OTHER_LOCAL)
    ensures h.core.world.db.payments == map[1 := PENDING_ROW, 4 := OTHER_LOCAL.row]
  {
    hide Reachable, Alone, NextAttemptNumber, Settled, OrderHasSucceededPayment;
    h := FirstAttempt();
    AnyProvider(h);
    AloneBeside(h.core, 1);
    OtherNumber(h.core.world.db);
    h := Begin(h, false, 1, OTHER);
    h := Finish(h, false, 1, OTHER, 4, 5, 6);
    assert h.core.world.db.payments == map[1 := PENDING_ROW, 4 := OTHER_LOCAL.row];
  }

  /** ... and answered with the id that the first application's row already carries. */
  lemma OtherAnswered() returns (h: Shop)
    ensures Reachable(h, false)
    ensures 1 in h.core.threads && h.core.threads[1] == PersistCreated(OTHER, OTHER_LOCAL, 9, "url")
    ensures h.core.world.db.payments == map[1 := PENDING_ROW, 4 := OTHER_LOCAL.row.(status := Creating)]
  {
    hide Reachable;
    h := OtherSent();
    h := Answered(h, false, 1, OTHER, OTHER_LOCAL);
  }

  /**
   * One application's row can make another's write fail: a run of the statement-level machine in which a provider
   * repeats an id, the second write is refused, and would not be if the first application did not exist.
   */
  lemma ForeignRowRefusesWrite()
    ensures exists e: Execution, s: State, t: nat ::
      && StatementRunTo(e, s) && t in s.threads && s.threads[t].PersistCreated? && Enabled(s, Step(t, At(0, 0)))
      && Perform(s.world, s.threads[t], At(0, 0)).thread == Fail(s.threads[t].req, Internal)
      && Perform(Isolation.Own(s.world, Isolation.AppOf(s.threads[t])), s.threads[t], At(0, 0)).thread
         == CompleteCreated(s.threads[t].req, s.threads[t].local)
  {
    hide Reachable, StatementRunTo;
    var h := OtherAnswered();
    var e := ReachedByRun(h, false);
    ForeignHolds(h.core);
    assert StatementRunTo(e, h.core);
  }

  lemma ForeignHolds(s: State)
    requires 1 in s.threads && s.threads[1] == PersistCreated(OTHER, OTHER_LOCAL, 9, "url")
    requires s.world.db.payments == map[1 := PENDING_ROW, 4 := OTHER_LOCAL.row.(status := Creating)]
    ensures Enabled(s, Step(1, At(0, 0)))
    ensures Perform(s.world, s.threads[1], At(0, 0)).thread == Fail(OTHER, Internal)
    ensures Perform(Isolation.Own(s.world, Isolation.AppOf(s.threads[1])), s.threads[1], At(0, 0)).thread
            == CompleteCreated(OTHER, OTHER_LOCAL)
  {
    hide Perform, Isolation.Own, Isolation.Restrict, ProviderIdTaken;
    NeverWaits(s, 1, At(0, 0));
    TakenByForeign(s.world.db);
    ForeignAnswers(s.world, s.threads[1]);
  }

  lemma ForeignAnswers(w: World, th: Thread)
    requires th == PersistCreated(OTHER, OTHER_LOCAL, 9, "url")
    requires ProviderIdTaken(w.db, 4, 9) && !ProviderIdTaken(Isolation.Restrict(w.db, 2), 4, 9)
    ensures Accepts(th, At(0, 0)) && Perform(w, th, At(0, 0)).thread == Fail(OTHER, Internal)
    ensures Perform(Isolation.Own(w, Isolation.AppOf(th)), th, At(0, 0)).thread == CompleteCreated(OTHER, OTHER_LOCAL)
  {
    hide Perform, Isolation.Own, Isolation.Restrict, ProviderIdTaken;
    Isolation.ForeignIdInterferes(w, th, At(0, 0));
  }

  lemma TakenByForeign(db: Store)
    requires db.payments == map[1 := PENDING_ROW, 4 := OTHER_LOCAL.row.(status := Creating)]
    ensures ProviderIdTaken(db, 4, 9) && !ProviderIdTaken(Isolation.Restrict(db, 2), 4, 9)
  {
    assert db.payments[1].providerId == Some(9);
  }
}
