/**
 * The payment core as a step machine (internal/payments/service.go): any number of requests, each a chain of
 * separately committed statements, interleaved freely and able to die between any two of them.
 */
module Protocol {
  import opened Basics
  import opened PaymentStates
  import opened ProviderClient
  import opened Tables

  /** A provider status read for one provider id. */
  datatype Reading = Reading(id: ProviderId, status: Status)

  /**
   * The tables, and a record of what happened that no code reads: the attempts of every order in insertion order,
   * the operation of every payment, the provider calls made for every operation, the statuses the provider
   * reported, and for every random id drawn the payment it was drawn for.
   */
  datatype World = World(db: Store, attempts: map<Slot, seq<Uuid>>, opOf: map<Uuid, Uuid>,
                         calls: map<Uuid, seq<ProviderRequest>>, readings: set<Reading>, issued: map<Uuid, Uuid>)

  function AttemptsOf(w: World, slot: Slot): seq<Uuid> {
    if slot in w.attempts then w.attempts[slot] else []
  }

  function CallsOf(w: World, o: Uuid): seq<ProviderRequest> {
    if o in w.calls then w.calls[o] else []
  }

  /** A validated create request of an authenticated application. */
  datatype CreateRequest = CreateRequest(slot: Slot, clientKey: nat, hash: Hash, input: CreateInput) {
    function Key(): ClientKey {
      ClientKey(slot.app, clientKey)
    }
  }

  /** localCreation: the inserted row as it was returned, and the ids that go with it. */
  datatype Local = Local(payment: Uuid, row: Payment, operation: Uuid, providerKey: Uuid)

  datatype Failure =
    | IdempotencyConflict | NotFound | OrderAlreadySucceeded | NoProviderAccount | ActiveAttemptExists
    | IllegalTransition | KeyRace | Refused(code: ErrorCode) | Internal

  datatype CreateResponse =
    | Accepted(payment: Uuid, row: Payment, replayed: bool, pending: bool)
    | Failed(failure: Failure)

  /** Where a request is, with everything it holds in local variables. */
  datatype Thread =
    // create
    | ReadKey(req: CreateRequest)
    | CheckPaid(req: CreateRequest)
    | ReadAccount(req: CreateRequest)
    | OpenLocal(req: CreateRequest, account: AccountId)
    // createLocal, statement by statement, inside its transaction; `seen` is the store its key check read
    | TxCheckPaid(req: CreateRequest, account: AccountId)
    | TxCheckKey(req: CreateRequest, account: AccountId)
    | TxNumber(req: CreateRequest, account: AccountId, seen: Store)
    | TxInsertPayment(req: CreateRequest, account: AccountId, seen: Store, attempt: int)
    | TxInsertOperation(req: CreateRequest, p: Uuid, row: Payment)
    | TxInsertKey(req: CreateRequest, local: Local, op: Operation)
    | TxCommit(req: CreateRequest, local: Local, op: Operation)
    // after createLocal
    | RaceReread(req: CreateRequest)
    | ReplayRead(req: CreateRequest, p: Uuid)
    | Credentials(req: CreateRequest, local: Local)
    | MarkCreating(req: CreateRequest, local: Local)
    | StartOperation(req: CreateRequest, local: Local)
    | CallProvider(req: CreateRequest, local: Local)
    | AwaitAnswer(req: CreateRequest, local: Local)
    | PersistCreated(req: CreateRequest, local: Local, id: ProviderId, url: string)
    | PersistUnknown(req: CreateRequest, local: Local, code: ErrorCode)
    | PersistCanceled(req: CreateRequest, local: Local, code: ErrorCode)
    | CompleteCreated(req: CreateRequest, local: Local)
    | CompleteUnknown(req: CreateRequest, local: Local, code: ErrorCode)
    | CompleteCanceled(req: CreateRequest, local: Local, code: ErrorCode)
    | RereadCreated(req: CreateRequest, local: Local)
    | RereadUnknown(req: CreateRequest, local: Local)
    | CreateDone(req: CreateRequest, response: CreateResponse)
    // get
    | GetRead(app: AppId, p: Uuid)
    | GetRefresh(app: AppId, p: Uuid, row: Payment)
    | GetApply(app: AppId, p: Uuid, row: Payment, next: Status)
    | GetReread(app: AppId, p: Uuid, row: Payment)
    | GetDone(app: AppId, p: Uuid, found: Option<Payment>)

  predicate CreateThread(th: Thread) {
    !th.GetRead? && !th.GetRefresh? && !th.GetApply? && !th.GetReread? && !th.GetDone?
  }

  /** What the outside decides about one step. */
  datatype Choice =
    | Go                                                  // the statement ran
    | At(now: Time, nextCheck: Time)                      // the statement ran, with these clock readings
    | Account(account: Option<AccountId>)                 // the default provider account found, if any
    | Atomic(p: Uuid, o: Uuid, key: Uuid)                 // createLocal as one step, drawing these ids
    | DrawPayment(p: Uuid)
    | DrawOperation(o: Uuid, key: Uuid)
    | Reply(exchange: Exchange)                           // the provider exchange ended like this
    | Swallowed                                           // the statement failed and the code only logs it

  datatype Outcome = Outcome(world: World, thread: Thread)

  /** Which choices make sense at which point. */
  predicate Accepts(th: Thread, c: Choice) {
    match th
    case ReadAccount(_) => c.Account?
    case OpenLocal(_, _) => c.Go? || c.Atomic?
    case TxInsertPayment(_, _, _, _) => c.DrawPayment?
    case TxInsertOperation(_, _, _) => c.DrawOperation?
    case StartOperation(_, _) => c.At?
    case CallProvider(_, _) => c.Go? || c == Reply(NotBuilt)
    case AwaitAnswer(_, _) => c.Reply? && !c.exchange.NotBuilt?
    case PersistCreated(_, _, _, _) => c.At?
    case PersistUnknown(_, _, _) => c.At?
    case PersistCanceled(_, _, _) => c.At?
    case CompleteCreated(_, _) => c.At? || c.Swallowed?
    case CompleteUnknown(_, _, _) => c.At? || c.Swallowed?
    case CompleteCanceled(_, _, _) => c.At? || c.Swallowed?
    case CreateDone(_, _) => false
    case GetRead(_, _) => c.At?
    case GetRefresh(_, _, _) => c.Reply? || c.Swallowed?
    case GetApply(_, _, _, _) => c.At? || c.Swallowed?
    case GetReread(_, _, _) => c.Go? || c.Swallowed?
    case GetDone(_, _, _) => false
    case _ => c.Go?
  }

  function Fail(req: CreateRequest, failure: Failure): Thread {
    CreateDone(req, Failed(failure))
  }

  /** replay, up to its read of the payment row. */
  function StartReplay(req: CreateRequest, record: IdempotencyRequest): Thread {
    if record.hash != req.hash then Fail(req, IdempotencyConflict)
    else if record.payment.None? then Fail(req, NotFound)
    else ReplayRead(req, record.payment.value)
  }

  /** The commit of createLocal: three rows at once. */
  function InsertLocal(w: World, req: CreateRequest, l: Local, op: Operation): World {
    w.(db := Store(w.db.payments[l.payment := l.row], w.db.operations[l.operation := op],
                   w.db.requests[req.Key() := IdempotencyRequest(req.hash, Some(l.payment))]),
       attempts := w.attempts[req.slot := AttemptsOf(w, req.slot) + [l.payment]],
       opOf := w.opOf[l.payment := l.operation])
  }

  function Issue(w: World, id: Uuid, p: Uuid): World {
    w.(issued := w.issued[id := p])
  }

  /** createLocal without interleaving: what the comment at its lock claims. */
  function CreateLocal(w: World, req: CreateRequest, account: AccountId, p: Uuid, o: Uuid, key: Uuid): Outcome {
    if OrderHasSucceededPayment(w.db, req.slot) then Outcome(w, Fail(req, OrderAlreadySucceeded))
    else if req.Key() in w.db.requests then Outcome(w, RaceReread(req))
    else
      var row := NewPayment(req.slot, account, NextAttemptNumber(w.db, req.slot), req.input);
      if InsertViolates(w.db, row) then Outcome(w, Fail(req, ActiveAttemptExists))
      else
        var l := Local(p, row, o, key);
        Outcome(Issue(Issue(Issue(InsertLocal(w, req, l, NewOperation(p, key, req.hash, req.input)), p, p), o, p), key, p),
                Credentials(req, l))
  }

  function AfterCall(req: CreateRequest, l: Local, x: Exchange): Thread {
    var result := CreateResult(x);
    if result.Ok? then PersistCreated(req, l, result.value.id, result.value.checkoutUrl)
    else
      var code := CodeOf(FromProvider(result.error));
      if Definitive(code) then PersistCanceled(req, l, code) else PersistUnknown(req, l, code)
  }

  /** internalStatus. */
  function InternalStatus(s: ProviderStatus): Status {
    match s
    case StPending => Pending
    case StSucceeded => Succeeded
    case StCanceled => Canceled
  }

  function WithDb(w: World, db: Store, th: Thread): Outcome {
    Outcome(w.(db := db), th)
  }

  /** The create thread up to the end of createLocal. */
  function PerformBegin(w: World, th: Thread, c: Choice): Outcome
    requires Accepts(th, c) && (th.ReadKey? || th.CheckPaid? || th.ReadAccount? || th.OpenLocal? || th.RaceReread? || th.ReplayRead?)
  {
    match th
    case ReadKey(req) =>
      var record := GetIdempotencyRequest(w.db, req.Key());
      Outcome(w, if record.Some? then StartReplay(req, record.value) else CheckPaid(req))
    case CheckPaid(req) =>
      Outcome(w, if OrderHasSucceededPayment(w.db, req.slot) then Fail(req, OrderAlreadySucceeded) else ReadAccount(req))
    case ReadAccount(req) =>
      Outcome(w, if c.account.Some? then OpenLocal(req, c.account.value) else Fail(req, NoProviderAccount))
    case OpenLocal(req, account) =>
      if c.Atomic? then CreateLocal(w, req, account, c.p, c.o, c.key) else Outcome(w, TxCheckPaid(req, account))
    case RaceReread(req) =>
      var record := GetIdempotencyRequest(w.db, req.Key());
      Outcome(w, if record.Some? then StartReplay(req, record.value) else Fail(req, KeyRace))
    case ReplayRead(req, p) =>
      var row := GetPaymentForApplication(w.db, p, req.slot.app);
      Outcome(w, if row.None? then Fail(req, NotFound)
                 else CreateDone(req, Accepted(p, row.value, true,
                                               !row.value.status.Terminal() && row.value.checkoutUrl.None?)))
  }

  predicate InTx(th: Thread) {
    || th.TxCheckPaid? || th.TxCheckKey? || th.TxNumber? || th.TxInsertPayment? || th.TxInsertOperation?
    || th.TxInsertKey? || th.TxCommit?
  }

  /** createLocal, one statement at a time. Every read sees the rows committed at that moment. */
  function PerformTx(w: World, th: Thread, c: Choice): Outcome
    requires Accepts(th, c) && InTx(th)
  {
    match th
    case TxCheckPaid(req, account) =>
      Outcome(w, if OrderHasSucceededPayment(w.db, req.slot) then Fail(req, OrderAlreadySucceeded)
                 else TxCheckKey(req, account))
    case TxCheckKey(req, account) =>
      Outcome(w, if req.Key() in w.db.requests then RaceReread(req) else TxNumber(req, account, w.db))
    case TxNumber(req, account, seen) =>
      Outcome(w, TxInsertPayment(req, account, seen, NextAttemptNumber(w.db, req.slot)))
    case TxInsertPayment(req, account, seen, attempt) =>
      var row := NewPayment(req.slot, account, attempt, req.input);
      Outcome(Issue(w, c.p, c.p), if InsertViolates(w.db, row) then Fail(req, ActiveAttemptExists)
                                  else TxInsertOperation(req, c.p, row))
    case TxInsertOperation(req, p, row) =>
      Outcome(Issue(Issue(w, c.o, p), c.key, p),
              TxInsertKey(req, Local(p, row, c.o, c.key), NewOperation(p, c.key, req.hash, req.input)))
    case TxInsertKey(req, l, op) =>
      Outcome(w, if req.Key() in w.db.requests then RaceReread(req) else TxCommit(req, l, op))
    case TxCommit(req, l, op) =>
      Outcome(InsertLocal(w, req, l, op), Credentials(req, l))
  }

  predicate Calling(th: Thread) {
    th.Credentials? || th.MarkCreating? || th.StartOperation? || th.CallProvider? || th.AwaitAnswer?
  }

  /** callProvider up to the provider's answer. */
  function PerformCall(w: World, th: Thread, c: Choice): Outcome
    requires Accepts(th, c) && Calling(th)
  {
    match th
    case Credentials(req, l) => Outcome(w, MarkCreating(req, l))
    case MarkCreating(req, l) =>
      if !CanTransition(l.row.status, Creating) then Outcome(w, Fail(req, IllegalTransition))
      else WithDb(w, MarkPaymentCreating(w.db, l.payment), StartOperation(req, l))
    case StartOperation(req, l) =>
      WithDb(w, StartPaymentOperation(w.db, l.operation, c.now), CallProvider(req, l))
    case CallProvider(req, l) =>
      if c.Reply? then Outcome(w, AfterCall(req, l, c.exchange))
      else
        var request := RequestOf(req.input, l.row, l.payment, l.providerKey);
        Outcome(w.(calls := w.calls[l.operation := CallsOf(w, l.operation) + [request]]), AwaitAnswer(req, l))
    case AwaitAnswer(req, l) => Outcome(w, AfterCall(req, l, c.exchange))
  }

  predicate Settling(th: Thread) {
    || th.PersistCreated? || th.PersistUnknown? || th.PersistCanceled?
    || th.CompleteCreated? || th.CompleteUnknown? || th.CompleteCanceled? || th.RereadCreated? || th.RereadUnknown?
  }

  function Complete(w: World, o: Uuid, status: OperationStatus, error: Option<ErrorCode>, c: Choice): World
    requires c.At? || c.Swallowed?
  {
    if c.At? then w.(db := CompletePaymentOperation(w.db, o, status, error, c.now)) else w
  }

  /** A payment row read back to build the response. */
  function Reread(w: World, req: CreateRequest, p: Uuid, pending: bool): Thread {
    var row := GetPaymentForApplication(w.db, p, req.slot.app);
    if row.None? then Fail(req, NotFound) else CreateDone(req, Accepted(p, row.value, false, pending))
  }

  /** The rest of callProvider, and handleCreateFailure. */
  function PerformSettle(w: World, th: Thread, c: Choice): Outcome
    requires Accepts(th, c) && Settling(th)
  {
    match th
    case PersistCreated(req, l, id, url) =>
      if ProviderIdTaken(w.db, l.payment, id) then Outcome(w, Fail(req, Internal))
      else WithDb(w, SetPaymentCreated(w.db, l.payment, id, url, c.nextCheck), CompleteCreated(req, l))
    case PersistUnknown(req, l, code) =>
      WithDb(w, SetPaymentCreationUnknown(w.db, l.payment, c.nextCheck), CompleteUnknown(req, l, code))
    case PersistCanceled(req, l, code) =>
      WithDb(w, SetPaymentCanceled(w.db, l.payment, c.now), CompleteCanceled(req, l, code))
    case CompleteCreated(req, l) => Outcome(Complete(w, l.operation, OpSucceeded, None, c), RereadCreated(req, l))
    case CompleteUnknown(req, l, code) =>
      Outcome(Complete(w, l.operation, OpUnknown, Some(code), c), RereadUnknown(req, l))
    case CompleteCanceled(req, l, code) =>
      Outcome(Complete(w, l.operation, OpFailed, Some(code), c), Fail(req, Refused(code)))
    case RereadCreated(req, l) => Outcome(w, Reread(w, req, l.payment, false))
    case RereadUnknown(req, l) => Outcome(w, Reread(w, req, l.payment, true))
  }

  predicate Getting(th: Thread) {
    th.GetRead? || th.GetRefresh? || th.GetApply? || th.GetReread?
  }

  /** GetPayment, maybeRefresh, refresh and applyProviderState: a failed refresh answers with the first read. */
  function PerformGet(w: World, th: Thread, c: Choice): Outcome
    requires Accepts(th, c) && Getting(th)
  {
    match th
    case GetRead(app, p) =>
      var row := GetPaymentForApplication(w.db, p, app);
      if row.None? then Outcome(w, GetDone(app, p, None))
      else if row.value.status.Terminal() || row.value.providerId.None? then Outcome(w, GetDone(app, p, row))
      else if row.value.nextCheckAt.Some? && row.value.nextCheckAt.value > c.now then Outcome(w, GetDone(app, p, row))
      else Outcome(w, GetRefresh(app, p, row.value))
    case GetRefresh(app, p, row) =>
      if c.Swallowed? || row.providerId.None? then Outcome(w, GetDone(app, p, Some(row)))
      else
        var result := GetResult(row.providerId.value, c.exchange);
        if result.Err? then Outcome(w, GetDone(app, p, Some(row)))
        else
          var next := InternalStatus(result.value.status);
          Outcome(w.(readings := w.readings + {Reading(row.providerId.value, next)}),
                  if CanTransition(row.status, next) then GetApply(app, p, row, next) else GetDone(app, p, Some(row)))
    case GetApply(app, p, row, next) =>
      if c.Swallowed? then Outcome(w, GetDone(app, p, Some(row)))
      else WithDb(w, ApplyProviderStatus(w.db, p, next, c.now, c.nextCheck), GetReread(app, p, row))
    case GetReread(app, p, row) =>
      var latest := GetPaymentForApplication(w.db, p, app);
      Outcome(w, GetDone(app, p, if c.Swallowed? || latest.None? then Some(row) else latest))
  }

  function Perform(w: World, th: Thread, c: Choice): Outcome
    requires Accepts(th, c)
  {
    if InTx(th) then PerformTx(w, th, c)
    else if Calling(th) then PerformCall(w, th, c)
    else if Settling(th) then PerformSettle(w, th, c)
    else if Getting(th) then PerformGet(w, th, c)
    else PerformBegin(w, th, c)
  }

  // ---- what a thread holds against others ----

  /** A payment it alone may write, an order it has locked, a client key it has inserted and not yet committed. */
  datatype Claims = Claims(payment: Option<Uuid>, slot: Option<Slot>, key: Option<ClientKey>)

  const NOTHING := Claims(None, None, None)

  function ClaimsOf(th: Thread): Claims {
    match th
    case TxCheckPaid(req, _) => Claims(None, Some(req.slot), None)
    case TxCheckKey(req, _) => Claims(None, Some(req.slot), None)
    case TxNumber(req, _, _) => Claims(None, Some(req.slot), None)
    case TxInsertPayment(req, _, _, _) => Claims(None, Some(req.slot), None)
    case TxInsertOperation(req, p, _) => Claims(Some(p), Some(req.slot), None)
    case TxInsertKey(req, l, _) => Claims(Some(l.payment), Some(req.slot), None)
    case TxCommit(req, l, _) => Claims(Some(l.payment), Some(req.slot), Some(req.Key()))
    case Credentials(_, l) => Claims(Some(l.payment), None, None)
    case MarkCreating(_, l) => Claims(Some(l.payment), None, None)
    case StartOperation(_, l) => Claims(Some(l.payment), None, None)
    case CallProvider(_, l) => Claims(Some(l.payment), None, None)
    case AwaitAnswer(_, l) => Claims(Some(l.payment), None, None)
    case PersistCreated(_, l, _, _) => Claims(Some(l.payment), None, None)
    case PersistUnknown(_, l, _) => Claims(Some(l.payment), None, None)
    case PersistCanceled(_, l, _) => Claims(Some(l.payment), None, None)
    case CompleteCreated(_, l) => Claims(Some(l.payment), None, None)
    case CompleteUnknown(_, l, _) => Claims(Some(l.payment), None, None)
    case CompleteCanceled(_, l, _) => Claims(Some(l.payment), None, None)
    case RereadCreated(_, l) => Claims(Some(l.payment), None, None)
    case RereadUnknown(_, l) => Claims(Some(l.payment), None, None)
    case _ => NOTHING
  }

  predicate Apart(a: Claims, b: Claims) {
    && (a.payment.None? || a.payment != b.payment)
    && (a.slot.None? || a.slot != b.slot)
    && (a.key.None? || a.key != b.key)
  }

  /** Everything a step may touch: what the thread holds, what it acquires, and the payment id it draws. */
  function StepClaims(th: Thread, c: Choice): Claims {
    if th.OpenLocal? && c.Atomic? then Claims(Some(c.p), Some(th.req.slot), Some(th.req.Key()))
    else if th.OpenLocal? then Claims(None, Some(th.req.slot), None)
    else if th.TxInsertPayment? && c.DrawPayment? then Claims(Some(c.p), Some(th.req.slot), None)
    else if th.TxInsertKey? then Claims(Some(th.local.payment), Some(th.req.slot), Some(th.req.Key()))
    else ClaimsOf(th)
  }

  // ---- the whole system ----

  datatype State = State(world: World, threads: map<nat, Thread>)

  datatype Label =
    | Start(t: nat, thread: Thread)   // a new request arrives
    | Die(t: nat)                     // a request ends with an error, its transaction rolled back
    | Step(t: nat, choice: Choice)     // a request does its next step

  const EMPTY: World := World(Store(map[], map[], map[]), map[], map[], map[], {}, map[])

  const INIT: State := State(EMPTY, map[])

  /** Random ids do not repeat. */
  predicate Fresh(w: World, c: Choice) {
    match c
    case Atomic(p, o, key) => p != o && p != key && o != key && p !in w.issued && o !in w.issued && key !in w.issued
    case DrawPayment(p) => p !in w.issued
    case DrawOperation(o, key) => o != key && o !in w.issued && key !in w.issued
    case _ => true
  }

  /** The advisory lock is free, or the client key is not in another open transaction's insert. */
  predicate Unblocked(s: State, t: nat, c: Choice)
    requires t in s.threads
  {
    var th := s.threads[t];
    forall u :: u in s.threads && u != t ==>
      && (th.OpenLocal? ==> ClaimsOf(s.threads[u]).slot != Some(th.req.slot))
      && ((th.OpenLocal? && c.Atomic?) || th.TxInsertKey? ==> ClaimsOf(s.threads[u]).key != Some(th.req.Key()))
  }

  predicate Finished(th: Thread) {
    th.CreateDone? || th.GetDone?
  }

  /** What a create request answers when its next statement fails: a failed re-read leaves the race unresolved. */
  function Lost(th: Thread): Failure {
    if th.RaceReread? then KeyRace else Internal
  }

  function Aborted(th: Thread): Thread {
    match th
    case GetRead(app, p) => GetDone(app, p, None)
    case GetRefresh(app, p, _) => GetDone(app, p, None)
    case GetApply(app, p, _, _) => GetDone(app, p, None)
    case GetReread(app, p, _) => GetDone(app, p, None)
    case GetDone(app, p, found) => th
    case _ => Fail(th.req, Lost(th))
  }

  predicate Enabled(s: State, l: Label) {
    match l
    case Start(t, th) => t !in s.threads && (th.ReadKey? || th.GetRead?)
    case Die(t) => t in s.threads && !Finished(s.threads[t])
    case Step(t, c) => t in s.threads && Accepts(s.threads[t], c) && Fresh(s.world, c) && Unblocked(s, t, c)
  }

  function Apply(s: State, l: Label): State
    requires Enabled(s, l)
  {
    match l
    case Start(t, th) => s.(threads := s.threads[t := th])
    case Die(t) => s.(threads := s.threads[t := Aborted(s.threads[t])])
    case Step(t, c) =>
      var out := Perform(s.world, s.threads[t], c);
      State(out.world, s.threads[t := out.thread])
  }

  /** createLocal runs as one step everywhere, or statement by statement everywhere. */
  predicate AtomicLabel(s: State, l: Label) {
    l.Step? && l.t in s.threads && s.threads[l.t].OpenLocal? ==> l.choice.Atomic?
  }

  predicate StatementLabel(l: Label) {
    l.Step? ==> !l.choice.Atomic?
  }

  /** A run: the states passed through and the labels between them. */
  datatype Execution = Execution(states: seq<State>, labels: seq<Label>)

  predicate ValidRun(r: Execution) {
    && |r.states| == |r.labels| + 1
    && r.states[0] == INIT
    && forall i :: 0 <= i < |r.labels| ==> Enabled(r.states[i], r.labels[i]) && r.states[i + 1] == Apply(r.states[i], r.labels[i])
  }
}
