/** What each statement of the service does to the whole system, one lemma per statement. */
module ServiceSteps {
  import opened Basics
  import opened PaymentStates
  import opened ProviderClient
  import opened Tables
  import opened Protocol

  /** The step of request t leads to these tables and records, and to this point of the request. */
  ghost predicate Leads(s: State, t: nat, c: Choice, w: World, next: Thread) {
    t in s.threads && Enabled(s, Step(t, c)) && Apply(s, Step(t, c)) == State(w, s.threads[t := next])
  }

  ghost predicate IsAt(s: State, t: nat, th: Thread) {
    t in s.threads && s.threads[t] == th
  }

  /** Only taking the order lock and inserting the client key can wait for another request. */
  lemma NeverWaits(s: State, t: nat, c: Choice)
    requires t in s.threads && !s.threads[t].OpenLocal? && !s.threads[t].TxInsertKey?
    ensures Unblocked(s, t, c)
  {
  }

  lemma FindStep(s: State, t: nat, req: CreateRequest)
    requires IsAt(s, t, ReadKey(req)) || IsAt(s, t, RaceReread(req))
    ensures var record := GetIdempotencyRequest(s.world.db, req.Key());
            Leads(s, t, Go, s.world, if record.Some? then StartReplay(req, record.value)
                                     else if s.threads[t].ReadKey? then CheckPaid(req) else Fail(req, KeyRace))
  {
    hide StartReplay, Tables.GetIdempotencyRequest;
    NeverWaits(s, t, Go);
  }

  lemma PaidStep(s: State, t: nat, req: CreateRequest)
    requires IsAt(s, t, CheckPaid(req))
    ensures Leads(s, t, Go, s.world, if OrderHasSucceededPayment(s.world.db, req.slot) then Fail(req, OrderAlreadySucceeded)
                                     else ReadAccount(req))
  {
    hide Tables.OrderHasSucceededPayment;
    NeverWaits(s, t, Go);
  }

  lemma AccountStep(s: State, t: nat, req: CreateRequest, account: Option<AccountId>)
    requires IsAt(s, t, ReadAccount(req))
    ensures Leads(s, t, Account(account), s.world, if account.Some? then OpenLocal(req, account.value)
                                                   else Fail(req, NoProviderAccount))
  {
    NeverWaits(s, t, Account(account));
  }

  lemma ReplayStep(s: State, t: nat, req: CreateRequest, p: Uuid)
    requires IsAt(s, t, ReplayRead(req, p))
    ensures var row := GetPaymentForApplication(s.world.db, p, req.slot.app);
            Leads(s, t, Go, s.world,
                  if row.None? then Fail(req, NotFound)
                  else CreateDone(req, Accepted(p, row.value, true, !row.value.status.Terminal() && row.value.checkoutUrl.None?)))
  {
    hide Tables.GetPaymentForApplication;
    NeverWaits(s, t, Go);
  }

  lemma LockStep(s: State, t: nat, req: CreateRequest, account: AccountId)
    requires IsAt(s, t, OpenLocal(req, account)) && Unblocked(s, t, Go)
    ensures Leads(s, t, Go, s.world, TxCheckPaid(req, account))
  {
    hide Unblocked;
  }

  lemma LocalStep(s: State, t: nat, req: CreateRequest, account: AccountId, c: Choice)
    requires IsAt(s, t, OpenLocal(req, account)) && c.Atomic? && Unblocked(s, t, c) && Fresh(s.world, c)
    ensures var out := CreateLocal(s.world, req, account, c.p, c.o, c.key); Leads(s, t, c, out.world, out.thread)
  {
    hide Unblocked, CreateLocal, Fresh;
  }

  /** The atomic step and the ids drawn for it. */
  function InsertedAs(w: World, req: CreateRequest, l: Local, op: Operation): World {
    InsertLocal(w, req, l, op).(issued := w.issued[l.payment := l.payment][l.operation := l.payment][l.providerKey := l.payment])
  }

  lemma AtomicRefused(s: State, t: nat, req: CreateRequest, account: AccountId, c: Choice)
    requires IsAt(s, t, OpenLocal(req, account)) && c.Atomic? && Unblocked(s, t, c) && Fresh(s.world, c)
    ensures OrderHasSucceededPayment(s.world.db, req.slot) ==> Leads(s, t, c, s.world, Fail(req, OrderAlreadySucceeded))
    ensures !OrderHasSucceededPayment(s.world.db, req.slot) && req.Key() in s.world.db.requests ==>
              Leads(s, t, c, s.world, RaceReread(req))
  {
    LocalStep(s, t, req, account, c);
    hide Leads, Unblocked, Fresh, InsertViolates, NextAttemptNumber, OrderHasSucceededPayment, NewPayment, NewOperation;
  }

  lemma AtomicInserts(s: State, t: nat, req: CreateRequest, account: AccountId, p: Uuid, o: Uuid, key: Uuid)
    requires IsAt(s, t, OpenLocal(req, account)) && Unblocked(s, t, Atomic(p, o, key)) && Fresh(s.world, Atomic(p, o, key))
    requires !OrderHasSucceededPayment(s.world.db, req.slot) && req.Key() !in s.world.db.requests
    ensures var c, w := Atomic(p, o, key), s.world;
            var row := NewPayment(req.slot, account, NextAttemptNumber(w.db, req.slot), req.input);
            if InsertViolates(w.db, row) then Leads(s, t, c, w, Fail(req, ActiveAttemptExists))
            else var l := Local(p, row, o, key);
                 Leads(s, t, c, InsertedAs(w, req, l, NewOperation(p, key, req.hash, req.input)), Credentials(req, l))
  {
    LocalStep(s, t, req, account, Atomic(p, o, key));
    hide Leads, Unblocked, Fresh, InsertViolates, NextAttemptNumber, OrderHasSucceededPayment, NewPayment, NewOperation;
  }

  lemma TxPaidStep(s: State, t: nat, req: CreateRequest, account: AccountId)
    requires IsAt(s, t, TxCheckPaid(req, account))
    ensures Leads(s, t, Go, s.world, if OrderHasSucceededPayment(s.world.db, req.slot) then Fail(req, OrderAlreadySucceeded)
                                     else TxCheckKey(req, account))
  {
    hide Tables.OrderHasSucceededPayment;
    NeverWaits(s, t, Go);
  }

  lemma TxKeyStep(s: State, t: nat, req: CreateRequest, account: AccountId)
    requires IsAt(s, t, TxCheckKey(req, account))
    ensures Leads(s, t, Go, s.world, if req.Key() in s.world.db.requests then RaceReread(req)
                                     else TxNumber(req, account, s.world.db))
  {
    NeverWaits(s, t, Go);
  }

  lemma NumberStep(s: State, t: nat, req: CreateRequest, account: AccountId, seen: Store)
    requires IsAt(s, t, TxNumber(req, account, seen))
    ensures Leads(s, t, Go, s.world, TxInsertPayment(req, account, seen, NextAttemptNumber(s.world.db, req.slot)))
  {
    hide Tables.NextAttemptNumber;
    NeverWaits(s, t, Go);
  }

  lemma InsertPaymentStep(s: State, t: nat, req: CreateRequest, account: AccountId, seen: Store, attempt: int, p: Uuid)
    requires IsAt(s, t, TxInsertPayment(req, account, seen, attempt)) && p !in s.world.issued
    ensures var row := NewPayment(req.slot, account, attempt, req.input);
            Leads(s, t, DrawPayment(p), s.world.(issued := s.world.issued[p := p]),
                  if InsertViolates(s.world.db, row) then Fail(req, ActiveAttemptExists) else TxInsertOperation(req, p, row))
  {
    hide InsertViolates, NewPayment;
    NeverWaits(s, t, DrawPayment(p));
  }

  lemma InsertOperationStep(s: State, t: nat, req: CreateRequest, p: Uuid, row: Payment, o: Uuid, key: Uuid)
    requires IsAt(s, t, TxInsertOperation(req, p, row)) && o != key && o !in s.world.issued && key !in s.world.issued
    ensures Leads(s, t, DrawOperation(o, key), s.world.(issued := s.world.issued[o := p][key := p]),
                  TxInsertKey(req, Local(p, row, o, key), NewOperation(p, key, req.hash, req.input)))
  {
    hide NewOperation;
    NeverWaits(s, t, DrawOperation(o, key));
  }

  lemma InsertKeyStep(s: State, t: nat, req: CreateRequest, l: Local, op: Operation)
    requires IsAt(s, t, TxInsertKey(req, l, op)) && Unblocked(s, t, Go)
    ensures Leads(s, t, Go, s.world, if req.Key() in s.world.db.requests then RaceReread(req) else TxCommit(req, l, op))
  {
    hide Unblocked;
  }

  lemma CommitStep(s: State, t: nat, req: CreateRequest, l: Local, op: Operation)
    requires IsAt(s, t, TxCommit(req, l, op))
    ensures Leads(s, t, Go, InsertLocal(s.world, req, l, op), Credentials(req, l))
  {
    hide InsertLocal;
    NeverWaits(s, t, Go);
  }

  lemma CredentialsStep(s: State, t: nat, req: CreateRequest, l: Local)
    requires IsAt(s, t, Credentials(req, l))
    ensures Leads(s, t, Go, s.world, MarkCreating(req, l))
  {
    NeverWaits(s, t, Go);
  }

  lemma MarkStep(s: State, t: nat, req: CreateRequest, l: Local)
    requires IsAt(s, t, MarkCreating(req, l))
    ensures if CanTransition(l.row.status, Creating)
            then Leads(s, t, Go, s.world.(db := MarkPaymentCreating(s.world.db, l.payment)), StartOperation(req, l))
            else Leads(s, t, Go, s.world, Fail(req, IllegalTransition))
  {
    hide Tables.MarkPaymentCreating, CanTransition;
    NeverWaits(s, t, Go);
  }

  lemma StartStep(s: State, t: nat, req: CreateRequest, l: Local, c: Choice)
    requires IsAt(s, t, StartOperation(req, l)) && c.At?
    ensures Leads(s, t, c, s.world.(db := StartPaymentOperation(s.world.db, l.operation, c.now)), CallProvider(req, l))
  {
    hide Tables.StartPaymentOperation;
    NeverWaits(s, t, c);
  }

  lemma NotBuiltStep(s: State, t: nat, req: CreateRequest, l: Local)
    requires IsAt(s, t, CallProvider(req, l))
    ensures Leads(s, t, Reply(NotBuilt), s.world, AfterCall(req, l, NotBuilt))
  {
    hide AfterCall;
    NeverWaits(s, t, Reply(NotBuilt));
  }

  lemma SendStep(s: State, t: nat, req: CreateRequest, l: Local)
    requires IsAt(s, t, CallProvider(req, l))
    ensures var request := RequestOf(req.input, l.row, l.payment, l.providerKey);
            Leads(s, t, Go, s.world.(calls := s.world.calls[l.operation := CallsOf(s.world, l.operation) + [request]]),
                  AwaitAnswer(req, l))
  {
    hide CallsOf, RequestOf;
    NeverWaits(s, t, Go);
  }

  lemma AnswerStep(s: State, t: nat, req: CreateRequest, l: Local, x: Exchange)
    requires IsAt(s, t, AwaitAnswer(req, l)) && !x.NotBuilt?
    ensures Leads(s, t, Reply(x), s.world, AfterCall(req, l, x))
  {
    hide AfterCall;
    NeverWaits(s, t, Reply(x));
  }

  lemma CreatedStep(s: State, t: nat, req: CreateRequest, l: Local, id: ProviderId, url: string, c: Choice)
    requires IsAt(s, t, PersistCreated(req, l, id, url)) && c.At?
    ensures if ProviderIdTaken(s.world.db, l.payment, id) then Leads(s, t, c, s.world, Fail(req, Internal))
            else Leads(s, t, c, s.world.(db := SetPaymentCreated(s.world.db, l.payment, id, url, c.nextCheck)),
                       CompleteCreated(req, l))
  {
    hide Tables.SetPaymentCreated, ProviderIdTaken;
    NeverWaits(s, t, c);
  }

  lemma UnknownStep(s: State, t: nat, req: CreateRequest, l: Local, code: ErrorCode, c: Choice)
    requires IsAt(s, t, PersistUnknown(req, l, code)) && c.At?
    ensures Leads(s, t, c, s.world.(db := SetPaymentCreationUnknown(s.world.db, l.payment, c.nextCheck)),
                  CompleteUnknown(req, l, code))
  {
    hide Tables.SetPaymentCreationUnknown;
    NeverWaits(s, t, c);
  }

  lemma CanceledStep(s: State, t: nat, req: CreateRequest, l: Local, code: ErrorCode, c: Choice)
    requires IsAt(s, t, PersistCanceled(req, l, code)) && c.At?
    ensures Leads(s, t, c, s.world.(db := SetPaymentCanceled(s.world.db, l.payment, c.now)), CompleteCanceled(req, l, code))
  {
    hide Tables.SetPaymentCanceled;
    NeverWaits(s, t, c);
  }

  predicate Completing(th: Thread) {
    th.CompleteCreated? || th.CompleteUnknown? || th.CompleteCanceled?
  }

  function CompletedAs(th: Thread): OperationStatus
    requires Completing(th)
  {
    if th.CompleteCreated? then OpSucceeded else if th.CompleteUnknown? then OpUnknown else OpFailed
  }

  function CompletedError(th: Thread): Option<ErrorCode>
    requires Completing(th)
  {
    if th.CompleteCreated? then None else Some(th.code)
  }

  function Completed(th: Thread): Thread
    requires Completing(th)
  {
    if th.CompleteCreated? then RereadCreated(th.req, th.local)
    else if th.CompleteUnknown? then RereadUnknown(th.req, th.local)
    else Fail(th.req, Refused(th.code))
  }

  lemma CompleteStep(s: State, t: nat, th: Thread, c: Choice)
    requires IsAt(s, t, th) && Completing(th) && (c.At? || c.Swallowed?)
    ensures Leads(s, t, c, Complete(s.world, th.local.operation, CompletedAs(th), CompletedError(th), c), Completed(th))
  {
    hide Complete;
    NeverWaits(s, t, c);
  }

  lemma RereadStep(s: State, t: nat, th: Thread)
    requires IsAt(s, t, th) && (th.RereadCreated? || th.RereadUnknown?)
    ensures Leads(s, t, Go, s.world, Reread(s.world, th.req, th.local.payment, th.RereadUnknown?))
  {
    hide Reread;
    NeverWaits(s, t, Go);
  }

  /** maybeRefresh: whether a row is read from the provider now. */
  predicate Due(row: Payment, now: Time) {
    !row.status.Terminal() && row.providerId.Some? && (row.nextCheckAt.None? || row.nextCheckAt.value <= now)
  }

  lemma GetReadStep(s: State, t: nat, app: AppId, p: Uuid, c: Choice)
    requires IsAt(s, t, GetRead(app, p)) && c.At?
    ensures var row := GetPaymentForApplication(s.world.db, p, app);
            Leads(s, t, c, s.world, if row.Some? && Due(row.value, c.now) then GetRefresh(app, p, row.value)
                                    else GetDone(app, p, row))
  {
    hide Tables.GetPaymentForApplication;
    NeverWaits(s, t, c);
  }

  /** refresh failed before or at the provider: the first read is the answer. */
  lemma RefreshFails(s: State, t: nat, app: AppId, p: Uuid, row: Payment, c: Choice)
    requires IsAt(s, t, GetRefresh(app, p, row)) && row.providerId.Some?
    requires c.Swallowed? || (c.Reply? && GetResult(row.providerId.value, c.exchange).Err?)
    ensures Leads(s, t, c, s.world, GetDone(app, p, Some(row)))
  {
    hide GetResult;
    NeverWaits(s, t, c);
  }

  lemma RefreshStep(s: State, t: nat, app: AppId, p: Uuid, row: Payment, c: Choice)
    requires IsAt(s, t, GetRefresh(app, p, row)) && row.providerId.Some?
    requires c.Reply? && GetResult(row.providerId.value, c.exchange).Ok?
    ensures var next := InternalStatus(GetResult(row.providerId.value, c.exchange).value.status);
            Leads(s, t, c, s.world.(readings := s.world.readings + {Reading(row.providerId.value, next)}),
                  if CanTransition(row.status, next) then GetApply(app, p, row, next) else GetDone(app, p, Some(row)))
  {
    hide GetResult, CanTransition, InternalStatus;
    NeverWaits(s, t, c);
  }

  lemma ApplyStep(s: State, t: nat, app: AppId, p: Uuid, row: Payment, next: Status, c: Choice)
    requires IsAt(s, t, GetApply(app, p, row, next)) && (c.At? || c.Swallowed?)
    ensures if c.Swallowed? then Leads(s, t, c, s.world, GetDone(app, p, Some(row)))
            else Leads(s, t, c, s.world.(db := ApplyProviderStatus(s.world.db, p, next, c.now, c.nextCheck)),
                       GetReread(app, p, row))
  {
    hide Tables.ApplyProviderStatus;
    NeverWaits(s, t, c);
  }

  lemma LatestStep(s: State, t: nat, app: AppId, p: Uuid, row: Payment, c: Choice)
    requires IsAt(s, t, GetReread(app, p, row)) && (c.Go? || c.Swallowed?)
    ensures var latest := GetPaymentForApplication(s.world.db, p, app);
            Leads(s, t, c, s.world, GetDone(app, p, if c.Swallowed? || latest.None? then Some(row) else latest))
  {
    hide Tables.GetPaymentForApplication;
    NeverWaits(s, t, c);
  }
}
