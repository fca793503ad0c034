/**
 * The payment service as code (internal/payments/service.go): every method runs its statements against the shared
 * tables while other requests run between them, and what happens is always a run of the step machine.
 */
module Services {
  import opened Basics
  import opened PaymentStates
  import opened ProviderClient
  import opened Tables
  import opened Protocol
  import opened Effects
  import opened Invariant
  import opened Runs
  import opened Idempotency
  import opened Database
  import opened ServiceSteps

  /** A run, continued by one step. */
  ghost function Continue(r: Execution, l: Label, s: State): Execution {
    Execution(r.states + [s], r.labels + [l])
  }

  /** Everything that happened in the first run happened at the start of the second. */
  ghost predicate Extends(a: Execution, b: Execution) {
    a.states <= b.states && a.labels <= b.labels
  }

  lemma Growing()
    ensures forall a, b, c {:trigger Extends(a, b), Extends(b, c)} :: Extends(a, b) && Extends(b, c) ==> Extends(a, c)
    ensures forall r :: Extends(r, r)
  {
  }

  lemma ContinueValid(r: Execution, l: Label)
    requires ValidRun(r) && Enabled(r.states[|r.labels|], l)
    ensures ValidRun(Continue(r, l, Apply(r.states[|r.labels|], l)))
  {
    hide Enabled, Apply;
  }

  lemma RunShape(r: Execution)
    requires ValidRun(r)
    ensures |r.states| == |r.labels| + 1
  {
  }

  lemma KeyFound(db: Store, k: ClientKey)
    ensures GetIdempotencyRequest(db, k).Some? <==> k in db.requests
  {
  }

  lemma AtPoint(s: State, t: nat, th: Thread)
    requires t in s.threads && s.threads[t] == th
    ensures IsAt(s, t, th)
  {
  }

  lemma SameWaits(s: State, bare: State, t: nat, c: Choice)
    requires s.threads == bare.threads && t in s.threads
    ensures Unblocked(s, t, c) <==> Unblocked(bare, t, c)
  {
  }

  lemma OthersKeep(s: State, l: Label, t: nat)
    requires Enabled(s, l) && l.t != t && t in s.threads
    ensures t in Apply(s, l).threads && Apply(s, l).threads[t] == s.threads[t]
  {
    hide Perform;
  }

  lemma DyingOK(s: State, t: nat)
    requires t in s.threads && !Finished(s.threads[t])
    ensures Enabled(s, Die(t)) && Apply(s, Die(t)).threads == s.threads[t := Aborted(s.threads[t])]
  {
  }

  lemma AbortedIs(th: Thread)
    ensures CreateThread(th) ==> Aborted(th) == Fail(th.req, Lost(th))
    ensures Getting(th) ==> Aborted(th) == GetDone(th.app, th.p, None)
  {
  }

  ghost predicate Above(p: Uuid, used: set<Uuid>) {
    forall u :: u in used ==> u < p
  }

  /** Random ids can be drawn again and again. */
  lemma AboveAll(used: set<Uuid>) returns (p: Uuid)
    ensures Above(p, used)
  {
    p := 0;
    var rest := used;
    while rest != {}
      invariant rest <= used && forall u :: u in used && u !in rest ==> u < p
      decreases |rest|
    {
      var x :| x in rest;
      rest := rest - {x};
      p := if p > x then p else x + 1;
    }
  }

  /** uuid.NewString */
  method NewUuid(used: map<Uuid, Uuid>) returns (id: Uuid)
    ensures id !in used
  {
    ghost var p := AboveAll(used.Keys);
    assert p !in used;
    id :| id !in used;
  }

  lemma FoundIsOwn(s: State, t: nat)
    requires Inv(s) && t in s.threads && s.threads[t].GetDone? && s.threads[t].found.Some?
    ensures var th, db := s.threads[t], s.world.db;
            th.found.value.slot.app == th.app && th.p in db.payments && SameIdentity(th.found.value, db.payments[th.p])
  {
    hide WorldOK, AllApart;
    assert ThreadOK(s.world, s.threads[t]);
  }

  /** Two of them. */
  method NewUuids(used: map<Uuid, Uuid>) returns (a: Uuid, b: Uuid)
    ensures a !in used && b !in used && a != b
  {
    a := NewUuid(used);
    b := NewUuid(used[a := a]);
  }

  datatype LocalResult = LocalCreated(local: Local) | LocalRaced | LocalFailed(failure: Failure)

  /** Where createLocal leaves its request. */
  function AfterLocal(req: CreateRequest, r: LocalResult): Thread {
    match r
    case LocalCreated(l) => Credentials(req, l)
    case LocalRaced => RaceReread(req)
    case LocalFailed(failure) => Fail(req, failure)
  }

  lemma AnyAtomic(s: State, t: nat, c: Choice)
    requires t in s.threads && c.Atomic? && Unblocked(s, t, Atomic(0, 0, 0))
    ensures Unblocked(s, t, c)
  {
  }

  class Service {
    const q: Queries
    /** Where every request is, with its local variables. */
    var threads: map<nat, Thread>
    /** The random ids drawn so far. */
    var issued: map<Uuid, Uuid>
    ghost var attempts: map<Slot, seq<Uuid>>
    ghost var opOf: map<Uuid, Uuid>
    ghost var calls: map<Uuid, seq<ProviderRequest>>
    ghost var readings: set<Reading>
    ghost var run: Execution

    /** The system without the record of what happened, which no statement reads. */
    function Bare(): State
      reads this, q
    {
      State(World(q.Rows(), map[], map[], map[], {}, issued), threads)
    }

    ghost function Records(): World
      reads this, q
    {
      World(q.Rows(), attempts, opOf, calls, readings, issued)
    }

    ghost function Now(): State
      reads this, q
    {
      State(Records(), threads)
    }

    /** What happened so far is a run of the step machine, and it led here. */
    ghost predicate Valid()
      reads this, q
    {
      ValidRun(run) && run.states[|run.labels|] == Now()
    }

    /** Request t is at this point. */
    ghost predicate At(t: nat, th: Thread)
      reads this, q
    {
      Valid() && t in threads && threads[t] == th
    }

    /** The last thing that happened is this step of request t. */
    ghost predicate Took(t: nat, c: Choice)
      reads this
    {
      |run.labels| > 0 && run.labels[|run.labels| - 1] == Step(t, c)
    }

    /** The tables just before the last thing that happened. */
    ghost function Before(): Store
      requires |run.states| > 1
      reads this
    {
      run.states[|run.states| - 2].world.db
    }

    constructor ()
      ensures Valid() && Now() == INIT && fresh(q)
    {
      q := new Queries();
      threads, issued := map[], map[];
      attempts, opOf, calls, readings := map[], map[], map[], {};
      run := Execution([INIT], []);
    }

    /** The invariant of all runs holds here and now. */
    lemma ValidInv()
      requires Valid()
      ensures Inv(Now())
    {
      hide ValidRun, Inv;
      RunShape(run);
      RunInv(run, |run.labels|);
    }

    lemma AtMeans(t: nat, th: Thread)
      requires At(t, th)
      ensures Valid() && t in threads && threads[t] == th
    {
    }

    ghost method Record(before: State, l: Label)
      requires ValidRun(run) && run.states[|run.labels|] == before && Enabled(before, l) && Now() == Apply(before, l)
      modifies this`run
      ensures Valid() && run == Continue(old(run), l, Now())
    {
      hide Enabled, Apply;
      ContinueValid(run, l);
      run := Continue(run, l, Now());
    }

    /** Request t moves on: tables and records are already those after its step. */
    method Advance(t: nat, ghost c: Choice, ghost before: State, next: Thread)
      requires ValidRun(run) && run.states[|run.labels|] == before && threads == before.threads
      requires Leads(before, t, c, Records(), next)
      modifies this`threads, this`run
      ensures At(t, next) && Took(t, c) && Extends(old(run), run) && Records() == old(Records())
      ensures |run.states| > 1 && Before() == before.world.db
    {
      hide Enabled, Apply, ValidRun;
      RunShape(run);
      threads := threads[t := next];
      Record(before, Step(t, c));
    }

    /** A step that draws random ids and changes no committed row. */
    method Draw(t: nat, ghost c: Choice, drawn: map<Uuid, Uuid>, next: Thread)
      requires Valid() && Leads(Now(), t, c, Records().(issued := drawn), next)
      modifies this
      ensures At(t, next) && Took(t, c) && Extends(old(run), run)
    {
      hide Leads, ValidRun, Extends, Queries.Rows;
      ghost var before := Now();
      issued := drawn;
      Advance(t, c, before, next);
    }

    /** Anything another request does. */
    method Other(l: Label)
      requires Valid() && Enabled(Now(), l)
      modifies this, q
      ensures Valid() && Now() == Apply(old(Now()), l) && Extends(old(run), run)
    {
      hide Enabled, Apply, ValidRun;
      ghost var before := Now();
      ghost var record := Apply(before, l).world;
      RecordUnread(before, Bare(), l);
      var after := Apply(Bare(), l);
      q.Become(after.world.db);
      threads, issued := after.threads, after.world.issued;
      attempts, opOf, calls, readings := record.attempts, record.opOf, record.calls, record.readings;
      Record(before, l);
    }

    /**
     * The moment before a statement: any number of other requests' steps run, and the statement may fail instead,
     * which ends this request and drops its transaction.
     */
    method Await(t: nat) returns (ok: bool)
      requires Valid() && t in threads && !Finished(threads[t])
      modifies this, q
      ensures Extends(old(run), run)
      ensures ok ==> At(t, old(threads[t]))
      ensures !ok && CreateThread(old(threads[t])) ==> At(t, Fail(old(threads[t]).req, Lost(old(threads[t]))))
      ensures !ok && Getting(old(threads[t])) ==> At(t, GetDone(old(threads[t]).app, old(threads[t]).p, None))
    {
      hide Extends, Enabled, Apply, ValidRun, Aborted;
      Growing();
      var steps: nat := *;
      while steps > 0
        invariant At(t, old(threads[t])) && Extends(old(run), run)
      {
        var l: Label := *;
        RecordUnread(Now(), Bare(), l);
        if Enabled(Bare(), l) && l.t != t {
          OthersKeep(Now(), l, t);
          Other(l);
        }
        steps := steps - 1;
      }
      ok := *;
      if !ok {
        Abandon(t);
      }
    }

    /** An error is returned from the middle of the request; an open transaction is rolled back. */
    method Abandon(t: nat)
      requires Valid() && t in threads && !Finished(threads[t])
      modifies this, q
      ensures Extends(old(run), run)
      ensures CreateThread(old(threads[t])) ==> At(t, Fail(old(threads[t]).req, Lost(old(threads[t]))))
      ensures Getting(old(threads[t])) ==> At(t, GetDone(old(threads[t]).app, old(threads[t]).p, None))
    {
      hide Extends, Enabled, Apply, ValidRun, Aborted;
      Growing();
      DyingOK(Now(), t);
      AbortedIs(threads[t]);
      Other(Die(t));
    }

    method Arrive(t: nat, th: Thread)
      requires Valid() && t !in threads && (th.ReadKey? || th.GetRead?)
      modifies this, q
      ensures At(t, th) && Extends(old(run), run)
    {
      hide ValidRun;
      Other(Start(t, th));
    }

    // ---- create: reads ----

    method FindRequest(t: nat, req: CreateRequest, raced: bool) returns (found: Result<Option<IdempotencyRequest>, Failure>)
      requires At(t, if raced then RaceReread(req) else ReadKey(req))
      modifies this, q
      ensures Extends(old(run), run)
      ensures found.Err? ==> At(t, Fail(req, found.error))
      ensures found.Ok? && found.value.Some? ==> At(t, StartReplay(req, found.value.value))
      ensures found.Ok? && found.value.None? ==> At(t, if raced then Fail(req, KeyRace) else CheckPaid(req))
      ensures found.Ok? ==> Took(t, Go) && |run.states| > 1 && found.value == GetIdempotencyRequest(Before(), req.Key())
    {
      hide Extends, ValidRun, Leads, StartReplay, Tables.GetIdempotencyRequest;
      Growing();
      var ok := Await(t);
      if !ok { return Err(if raced then KeyRace else Internal); }
      var record := q.GetIdempotencyRequest(req.Key());
      FindStep(Now(), t, req);
      Advance(t, Go, Now(), if record.Some? then StartReplay(req, record.value)
                            else if raced then Fail(req, KeyRace) else CheckPaid(req));
      found := Ok(record);
    }

    method OrderPaid(t: nat, req: CreateRequest) returns (paid: Result<bool, Failure>)
      requires At(t, CheckPaid(req))
      modifies this, q
      ensures Extends(old(run), run)
      ensures paid.Err? ==> At(t, Fail(req, paid.error))
      ensures paid.Ok? ==> At(t, if paid.value then Fail(req, OrderAlreadySucceeded) else ReadAccount(req))
      ensures paid.Ok? ==> Took(t, Go) && |run.states| > 1 && paid.value == OrderHasSucceededPayment(Before(), req.slot)
    {
      hide Extends, ValidRun, Leads, Tables.OrderHasSucceededPayment;
      Growing();
      var ok := Await(t);
      if !ok { return Err(Internal); }
      var found := q.OrderHasSucceededPayment(req.slot);
      PaidStep(Now(), t, req);
      Advance(t, Go, Now(), if found then Fail(req, OrderAlreadySucceeded) else ReadAccount(req));
      paid := Ok(found);
    }

    method DefaultAccount(t: nat, req: CreateRequest) returns (account: Result<Option<AccountId>, Failure>)
      requires At(t, ReadAccount(req))
      modifies this, q
      ensures Extends(old(run), run)
      ensures account.Err? ==> At(t, Fail(req, account.error))
      ensures account.Ok? ==> At(t, if account.value.Some? then OpenLocal(req, account.value.value)
                                    else Fail(req, NoProviderAccount))
    {
      hide Extends, ValidRun, Leads;
      Growing();
      var ok := Await(t);
      if !ok { return Err(Internal); }
      var found: Option<AccountId> := *;
      AccountStep(Now(), t, req, found);
      Advance(t, Account(found), Now(), if found.Some? then OpenLocal(req, found.value) else Fail(req, NoProviderAccount));
      account := Ok(found);
    }

    // ---- createLocal ----

    /** Waits for the order's lock; a request that gives up waiting has failed. */
    method LockOrder(t: nat, req: CreateRequest, account: AccountId) returns (ok: bool)
      requires At(t, OpenLocal(req, account))
      modifies this, q
      ensures Extends(old(run), run)
      ensures At(t, if ok then TxCheckPaid(req, account) else Fail(req, Internal))
    {
      hide Extends, ValidRun, Leads, Unblocked;
      Growing();
      ok := Await(t);
      if !ok { return; }
      SameWaits(Now(), Bare(), t, Go);
      if !Unblocked(Bare(), t, Go) {
        Abandon(t);
        return false;
      }
      LockStep(Now(), t, req, account);
      Advance(t, Go, Now(), TxCheckPaid(req, account));
    }

    method OrderPaidLocked(t: nat, req: CreateRequest, account: AccountId) returns (paid: Result<bool, Failure>)
      requires At(t, TxCheckPaid(req, account))
      modifies this, q
      ensures Extends(old(run), run)
      ensures paid.Err? ==> At(t, Fail(req, paid.error))
      ensures paid.Ok? ==> At(t, if paid.value then Fail(req, OrderAlreadySucceeded) else TxCheckKey(req, account))
      ensures paid.Ok? ==> Took(t, Go) && |run.states| > 1 && paid.value == OrderHasSucceededPayment(Before(), req.slot)
    {
      hide Extends, ValidRun, Leads, Tables.OrderHasSucceededPayment;
      Growing();
      var ok := Await(t);
      if !ok { return Err(Internal); }
      var found := q.OrderHasSucceededPayment(req.slot);
      TxPaidStep(Now(), t, req, account);
      Advance(t, Go, Now(), if found then Fail(req, OrderAlreadySucceeded) else TxCheckKey(req, account));
      paid := Ok(found);
    }

    method KeyTakenLocked(t: nat, req: CreateRequest, account: AccountId)
      returns (taken: Result<bool, Failure>, ghost seen: Store)
      requires At(t, TxCheckKey(req, account))
      modifies this, q
      ensures Extends(old(run), run)
      ensures taken.Err? ==> At(t, Fail(req, taken.error))
      ensures taken.Ok? && taken.value ==> At(t, RaceReread(req))
      ensures taken.Ok? && !taken.value ==> At(t, TxNumber(req, account, seen))
      ensures taken.Ok? ==> Took(t, Go) && |run.states| > 1 && Before() == seen && taken.value == (req.Key() in seen.requests)
    {
      hide Extends, ValidRun, Leads;
      Growing();
      seen := q.Rows();
      var ok := Await(t);
      if !ok { return Err(Internal), seen; }
      var record := q.GetIdempotencyRequest(req.Key());
      seen := q.Rows();
      TxKeyStep(Now(), t, req, account);
      Advance(t, Go, Now(), if record.Some? then RaceReread(req) else TxNumber(req, account, q.Rows()));
      taken := Ok(record.Some?);
    }

    method NextNumber(t: nat, req: CreateRequest, account: AccountId, ghost seen: Store)
      returns (attempt: Result<int, Failure>)
      requires At(t, TxNumber(req, account, seen))
      modifies this, q
      ensures Extends(old(run), run)
      ensures attempt.Err? ==> At(t, Fail(req, attempt.error))
      ensures attempt.Ok? ==> At(t, TxInsertPayment(req, account, seen, attempt.value))
      ensures attempt.Ok? ==> Took(t, Go) && |run.states| > 1 && attempt.value == NextAttemptNumber(Before(), req.slot)
    {
      hide Extends, ValidRun, Leads, Tables.NextAttemptNumber;
      Growing();
      var ok := Await(t);
      if !ok { return Err(Internal); }
      var n := q.NextAttemptNumber(req.slot);
      NumberStep(Now(), t, req, account, seen);
      Advance(t, Go, Now(), TxInsertPayment(req, account, threads[t].seen, n));
      attempt := Ok(n);
    }

    /** The insert into payments; a unique index answers for a taken number or an open attempt. */
    method InsertPayment(t: nat, tx: Transaction, req: CreateRequest, account: AccountId, ghost seen: Store, attempt: int)
      returns (inserted: Result<Uuid, Failure>)
      requires At(t, TxInsertPayment(req, account, seen, attempt)) && tx.db == q && tx.Empty()
      modifies this, q, tx`payments
      ensures Extends(old(run), run)
      ensures inserted.Err? ==> At(t, Fail(req, inserted.error))
      ensures inserted.Ok? ==>
                var row := NewPayment(req.slot, account, attempt, req.input);
                && At(t, TxInsertOperation(req, inserted.value, row)) && Took(t, DrawPayment(inserted.value))
                && tx.payments == map[inserted.value := row] && tx.operations == map[] && tx.requests == map[]
    {
      hide Extends, At, NewPayment, Queries.Rows, Transaction.Rows;
      Growing();
      AtMeans(t, TxInsertPayment(req, account, seen, attempt));
      var ok := Await(t);
      if !ok { return Err(Internal); }
      inserted := PlacePayment(t, tx, req, account, seen, attempt);
    }

    method PlacePayment(t: nat, tx: Transaction, req: CreateRequest, account: AccountId, ghost seen: Store, attempt: int)
      returns (inserted: Result<Uuid, Failure>)
      requires At(t, TxInsertPayment(req, account, seen, attempt)) && tx.db == q && tx.Empty()
      modifies this, tx`payments
      ensures Extends(old(run), run)
      ensures inserted.Err? ==> At(t, Fail(req, inserted.error))
      ensures inserted.Ok? ==>
                var row := NewPayment(req.slot, account, attempt, req.input);
                && At(t, TxInsertOperation(req, inserted.value, row)) && Took(t, DrawPayment(inserted.value))
                && tx.payments == map[inserted.value := row] && tx.operations == map[] && tx.requests == map[]
    {
      hide Extends, ValidRun, Leads, InsertViolates, NewPayment, Queries.Rows, Transaction.Rows, At, Took, IsAt;
      AtMeans(t, TxInsertPayment(req, account, seen, attempt));
      AtPoint(Now(), t, TxInsertPayment(req, account, seen, attempt));
      var row := NewPayment(req.slot, account, attempt, req.input);
      var p := NewUuid(issued);
      tx.SeesCommitted();
      ghost var before := Now();
      InsertPaymentStep(before, t, req, account, seen, attempt, p);
      var ok := tx.CreatePayment(p, row);
      assert Now() == before;
      if !ok {
        Draw(t, DrawPayment(p), issued[p := p], Fail(req, ActiveAttemptExists));
        return Err(ActiveAttemptExists);
      }
      Draw(t, DrawPayment(p), issued[p := p], TxInsertOperation(req, p, row));
      inserted := Ok(p);
    }

    method InsertOperation(t: nat, tx: Transaction, req: CreateRequest, p: Uuid, row: Payment) returns (l: Local, op: Operation)
      requires At(t, TxInsertOperation(req, p, row)) && tx.db == q
      requires tx.payments == map[p := row] && tx.operations == map[] && tx.requests == map[]
      modifies this, tx`operations
      ensures Extends(old(run), run)
      ensures l.payment == p && l.row == row && op == NewOperation(p, l.providerKey, req.hash, req.input)
      ensures At(t, TxInsertKey(req, l, op)) && Took(t, DrawOperation(l.operation, l.providerKey))
      ensures tx.operations == map[l.operation := op]
    {
      hide Extends, ValidRun, Leads, NewOperation, Queries.Rows, Transaction.Rows;
      var o, key := NewUuids(issued);
      op := NewOperation(p, key, req.hash, req.input);
      l := Local(p, row, o, key);
      InsertOperationStep(Now(), t, req, p, row, o, key);
      Draw(t, DrawOperation(o, key), issued[o := p][key := p], TxInsertKey(req, l, op));
      tx.CreatePaymentOperation(o, op);
    }

    /** The insert of the client's key: it waits for another transaction's insert of that key, and fails on a committed one. */
    method InsertKey(t: nat, tx: Transaction, req: CreateRequest, l: Local, op: Operation) returns (inserted: Result<bool, Failure>)
      requires At(t, TxInsertKey(req, l, op)) && tx.db == q && tx.requests == map[]
      modifies this, q, tx`requests
      ensures Extends(old(run), run)
      ensures inserted.Err? ==> At(t, Fail(req, inserted.error))
      ensures inserted.Ok? ==> Took(t, Go)
      ensures inserted.Ok? && !inserted.value ==> At(t, RaceReread(req))
      ensures inserted.Ok? && inserted.value ==> At(t, TxCommit(req, l, op))
      ensures inserted.Ok? && inserted.value ==> tx.requests == map[req.Key() := IdempotencyRequest(req.hash, Some(l.payment))]
    {
      hide Extends, ValidRun, Leads, Unblocked, Queries.Rows;
      Growing();
      var ok := Await(t);
      if !ok { return Err(Internal); }
      SameWaits(Now(), Bare(), t, Go);
      if !Unblocked(Bare(), t, Go) {
        Abandon(t);
        return Err(Internal);
      }
      ghost var before := Now();
      InsertKeyStep(before, t, req, l, op);
      assert q.requests == q.Rows().requests by { q.RowsAre(); }
      ok := tx.CreateIdempotencyRequest(req.Key(), IdempotencyRequest(req.hash, Some(l.payment)));
      Advance(t, Go, before, if ok then TxCommit(req, l, op) else RaceReread(req));
      inserted := Ok(ok);
    }

    method Commit(t: nat, tx: Transaction, req: CreateRequest, l: Local, op: Operation) returns (ok: bool)
      requires At(t, TxCommit(req, l, op)) && tx.db == q
      requires tx.payments == map[l.payment := l.row] && tx.operations == map[l.operation := op]
      requires tx.requests == map[req.Key() := IdempotencyRequest(req.hash, Some(l.payment))]
      modifies this, q
      ensures Extends(old(run), run)
      ensures At(t, if ok then Credentials(req, l) else Fail(req, Internal))
      ensures ok ==> Took(t, Go)
    {
      hide Extends, ValidRun, Leads;
      Growing();
      ok := Await(t);
      if !ok { return; }
      ghost var before := Now();
      tx.Adds(l.payment, l.row, l.operation, op, req.Key(), IdempotencyRequest(req.hash, Some(l.payment)));
      tx.Commit();
      attempts := attempts[req.slot := (if req.slot in attempts then attempts[req.slot] else []) + [l.payment]];
      opOf := opOf[l.payment := l.operation];
      CommitStep(before, t, req, l, op);
      Advance(t, Go, before, Credentials(req, l));
    }

    /** One transaction, statement by statement. */
    method CreateLocal(t: nat, req: CreateRequest, account: AccountId) returns (r: LocalResult)
      requires At(t, OpenLocal(req, account))
      modifies this, q
      ensures Extends(old(run), run)
      ensures At(t, AfterLocal(req, r))
    {
      hide Extends, At, Took, Before, Queries.Rows, Transaction.Rows, NewPayment, NewOperation;
      Growing();
      var tx := new Transaction(q);
      var ok := LockOrder(t, req, account);
      if !ok { return LocalFailed(Internal); }
      var paid := OrderPaidLocked(t, req, account);
      if paid.Err? { return LocalFailed(paid.error); }
      if paid.value { return LocalFailed(OrderAlreadySucceeded); }
      var taken, seen := KeyTakenLocked(t, req, account);
      if taken.Err? { return LocalFailed(taken.error); }
      if taken.value { return LocalRaced; }
      var attempt := NextNumber(t, req, account, seen);
      if attempt.Err? { return LocalFailed(attempt.error); }
      r := InsertRows(t, tx, req, account, seen, attempt.value);
    }

    /** The three inserts and the commit. */
    method InsertRows(t: nat, tx: Transaction, req: CreateRequest, account: AccountId, ghost seen: Store, attempt: int)
      returns (r: LocalResult)
      requires At(t, TxInsertPayment(req, account, seen, attempt)) && tx.db == q && tx.Empty()
      modifies this, q, tx
      ensures Extends(old(run), run)
      ensures At(t, AfterLocal(req, r))
    {
      hide Extends, At, Took, Before, Queries.Rows, Transaction.Rows, NewPayment, NewOperation;
      Growing();
      var inserted := InsertPayment(t, tx, req, account, seen, attempt);
      if inserted.Err? { return LocalFailed(inserted.error); }
      AtMeans(t, TxInsertOperation(req, inserted.value, NewPayment(req.slot, account, attempt, req.input)));
      var ok := Await(t);
      if !ok { return LocalFailed(Internal); }
      var l, op := InsertOperation(t, tx, req, inserted.value, NewPayment(req.slot, account, attempt, req.input));
      var key := InsertKey(t, tx, req, l, op);
      if key.Err? { return LocalFailed(key.error); }
      if !key.value { return LocalRaced; }
      ok := Commit(t, tx, req, l, op);
      if !ok { return LocalFailed(Internal); }
      return LocalCreated(l);
    }

    /** The same statements with nothing between them are the atomic step, if no other transaction is in the way. */
    method CreateLocalAlone(t: nat, req: CreateRequest, account: AccountId) returns (r: LocalResult, ghost c: Choice)
      requires At(t, OpenLocal(req, account)) && Unblocked(Now(), t, Atomic(0, 0, 0))
      modifies this, q
      ensures c.Atomic? && Took(t, c) && Extends(old(run), run)
      ensures At(t, AfterLocal(req, r))
    {
      hide Extends, ValidRun, Unblocked;
      var p := NewUuid(issued);
      var o := NewUuid(issued[p := p]);
      var key := NewUuid(issued[p := p][o := p]);
      c := Atomic(p, o, key);
      AnyAtomic(Now(), t, c);
      r := LocalAlone(t, req, account, p, o, key);
    }

    method LocalAlone(t: nat, req: CreateRequest, account: AccountId, p: Uuid, o: Uuid, key: Uuid) returns (r: LocalResult)
      requires At(t, OpenLocal(req, account))
      requires Unblocked(Now(), t, Atomic(p, o, key)) && Fresh(Records(), Atomic(p, o, key))
      modifies this, q
      ensures Took(t, Atomic(p, o, key)) && Extends(old(run), run)
      ensures At(t, AfterLocal(req, r))
    {
      hide Extends, ValidRun, Leads, Unblocked, Fresh, NewPayment, NewOperation, InsertViolates,
        Tables.OrderHasSucceededPayment, Tables.NextAttemptNumber, Queries.Rows, InsertedAs, At, Took, IsAt;
      AtMeans(t, OpenLocal(req, account));
      AtPoint(Now(), t, OpenLocal(req, account));
      AtomicRefused(Now(), t, req, account, Atomic(p, o, key));
      var paid := q.OrderHasSucceededPayment(req.slot);
      if paid {
        Advance(t, Atomic(p, o, key), Now(), Fail(req, OrderAlreadySucceeded));
        return LocalFailed(OrderAlreadySucceeded);
      }
      r := KeyAlone(t, req, account, p, o, key);
    }

    method KeyAlone(t: nat, req: CreateRequest, account: AccountId, p: Uuid, o: Uuid, key: Uuid) returns (r: LocalResult)
      requires At(t, OpenLocal(req, account)) && !Tables.OrderHasSucceededPayment(q.Rows(), req.slot)
      requires Unblocked(Now(), t, Atomic(p, o, key)) && Fresh(Records(), Atomic(p, o, key))
      modifies this, q
      ensures Took(t, Atomic(p, o, key)) && Extends(old(run), run)
      ensures At(t, AfterLocal(req, r))
    {
      hide Extends, ValidRun, Leads, Unblocked, Fresh, NewPayment, NewOperation, InsertViolates,
        Tables.OrderHasSucceededPayment, Tables.NextAttemptNumber, Queries.Rows, InsertedAs, Tables.GetIdempotencyRequest;
      KeyFound(q.Rows(), req.Key());
      AtomicRefused(Now(), t, req, account, Atomic(p, o, key));
      var record := q.GetIdempotencyRequest(req.Key());
      if record.Some? {
        Advance(t, Atomic(p, o, key), Now(), RaceReread(req));
        return LocalRaced;
      }
      r := NumberAlone(t, req, account, p, o, key);
    }

    method NumberAlone(t: nat, req: CreateRequest, account: AccountId, p: Uuid, o: Uuid, key: Uuid) returns (r: LocalResult)
      requires At(t, OpenLocal(req, account))
      requires Unblocked(Now(), t, Atomic(p, o, key)) && Fresh(Records(), Atomic(p, o, key))
      requires !Tables.OrderHasSucceededPayment(q.Rows(), req.slot) && req.Key() !in q.Rows().requests
      modifies this, q
      ensures Took(t, Atomic(p, o, key)) && Extends(old(run), run)
      ensures At(t, AfterLocal(req, r))
    {
      hide Extends, ValidRun, Leads, Unblocked, Fresh, NewPayment, NewOperation, InsertViolates,
        Tables.OrderHasSucceededPayment, Tables.NextAttemptNumber, Queries.Rows, InsertedAs;
      AtomicInserts(Now(), t, req, account, p, o, key);
      var attempt := q.NextAttemptNumber(req.slot);
      r := InsertAlone(t, req, NewPayment(req.slot, account, attempt, req.input), p, o, key);
    }

    method InsertAlone(t: nat, req: CreateRequest, row: Payment, p: Uuid, o: Uuid, key: Uuid) returns (r: LocalResult)
      requires Valid() && t in threads && req.Key() !in q.Rows().requests
      requires var l := Local(p, row, o, key);
        if InsertViolates(q.Rows(), row) then Leads(Now(), t, Atomic(p, o, key), Records(), Fail(req, ActiveAttemptExists))
        else Leads(Now(), t, Atomic(p, o, key), InsertedAs(Records(), req, l, NewOperation(p, key, req.hash, req.input)),
                   Credentials(req, l))
      modifies this, q
      ensures Took(t, Atomic(p, o, key)) && Extends(old(run), run)
      ensures At(t, AfterLocal(req, r))
    {
      hide Extends, ValidRun, Leads, InsertViolates, NewOperation, InsertedAs, Queries.Rows, Transaction.Rows;
      ghost var before := Now();
      ghost var c := Atomic(p, o, key);
      var tx := new Transaction(q);
      tx.SeesCommitted();
      var ok := tx.CreatePayment(p, row);
      if !ok {
        Advance(t, c, before, Fail(req, ActiveAttemptExists));
        return LocalFailed(ActiveAttemptExists);
      }
      var l := Local(p, row, o, key);
      InsertRest(tx, req, l, NewOperation(p, key, req.hash, req.input));
      Advance(t, c, before, Credentials(req, l));
      r := LocalCreated(l);
    }

    /** The other two inserts and the commit, with nothing in between. */
    method InsertRest(tx: Transaction, req: CreateRequest, l: Local, op: Operation)
      requires tx.db == q && tx.payments == map[l.payment := l.row] && tx.operations == map[] && tx.requests == map[]
      requires req.Key() !in q.Rows().requests
      modifies this`attempts, this`opOf, this`issued, q, tx
      ensures Records() == InsertedAs(old(Records()), req, l, op)
    {
      tx.CreatePaymentOperation(l.operation, op);
      var ok := tx.CreateIdempotencyRequest(req.Key(), IdempotencyRequest(req.hash, Some(l.payment)));
      tx.Adds(l.payment, l.row, l.operation, op, req.Key(), IdempotencyRequest(req.hash, Some(l.payment)));
      tx.Commit();
      attempts := attempts[req.slot := (if req.slot in attempts then attempts[req.slot] else []) + [l.payment]];
      opOf := opOf[l.payment := l.operation];
      issued := issued[l.payment := l.payment][l.operation := l.payment][l.providerKey := l.payment];
    }

    // ---- callProvider ----

    method ProviderCredentials(t: nat, req: CreateRequest, l: Local) returns (ok: bool)
      requires At(t, Credentials(req, l))
      modifies this, q
      ensures Extends(old(run), run)
      ensures At(t, if ok then MarkCreating(req, l) else Fail(req, Internal))
    {
      hide Extends, ValidRun, Leads, Queries.Rows;
      Growing();
      ok := Await(t);
      if !ok { return; }
      CredentialsStep(Now(), t, req, l);
      Advance(t, Go, Now(), MarkCreating(req, l));
    }

    /** Validates the transition against the local copy of the row, then writes it. */
    method BecomeCreating(t: nat, req: CreateRequest, l: Local) returns (failed: Option<Failure>)
      requires At(t, MarkCreating(req, l))
      modifies this, q
      ensures Extends(old(run), run)
      ensures At(t, if failed.None? then StartOperation(req, l) else Fail(req, failed.value))
      ensures failed.None? ==> Took(t, Go) && CanTransition(l.row.status, Creating)
    {
      hide Extends, ValidRun, Leads, CanTransition, Tables.MarkPaymentCreating;
      Growing();
      var ok := Await(t);
      if !ok { return Some(Internal); }
      ghost var before := Now();
      MarkStep(before, t, req, l);
      if !CanTransition(l.row.status, Creating) {
        Advance(t, Go, before, Fail(req, IllegalTransition));
        return Some(IllegalTransition);
      }
      q.MarkPaymentCreating(l.payment);
      Advance(t, Go, before, StartOperation(req, l));
      failed := None;
    }

    method BeginOperation(t: nat, req: CreateRequest, l: Local) returns (ok: bool)
      requires At(t, StartOperation(req, l))
      modifies this, q
      ensures Extends(old(run), run)
      ensures At(t, if ok then Thread.CallProvider(req, l) else Fail(req, Internal))
    {
      hide Extends, ValidRun, Leads, Tables.StartPaymentOperation;
      Growing();
      ok := Await(t);
      if !ok { return; }
      var now: Time := *;
      ghost var before := Now();
      StartStep(before, t, req, l, Choice.At(now, now));
      q.StartPaymentOperation(l.operation, now);
      Advance(t, Choice.At(now, now), before, Thread.CallProvider(req, l));
    }

    /** The exchange with the provider: nothing is sent when the request cannot be built. */
    method Exchange(t: nat, req: CreateRequest, l: Local) returns (x: Result<Exchange, Failure>)
      requires At(t, Thread.CallProvider(req, l))
      modifies this, q
      ensures Extends(old(run), run)
      ensures At(t, if x.Ok? then AfterCall(req, l, x.value) else Fail(req, x.error))
    {
      hide Extends, ValidRun, Leads, AfterCall, Queries.Rows;
      Growing();
      var ok := Await(t);
      if !ok { return Err(Internal); }
      var built: bool := *;
      if !built {
        NotBuiltStep(Now(), t, req, l);
        Advance(t, Reply(NotBuilt), Now(), AfterCall(req, l, NotBuilt));
        return Ok(NotBuilt);
      }
      Send(t, req, l);
      x := Receive(t, req, l);
    }

    method Send(t: nat, req: CreateRequest, l: Local)
      requires At(t, Thread.CallProvider(req, l))
      modifies this
      ensures Extends(old(run), run)
      ensures At(t, AwaitAnswer(req, l)) && Took(t, Go)
    {
      hide Extends, ValidRun, Leads, RequestOf, Queries.Rows;
      ghost var before := Now();
      var request := RequestOf(req.input, l.row, l.payment, l.providerKey);
      SendStep(before, t, req, l);
      calls := calls[l.operation := (if l.operation in calls then calls[l.operation] else []) + [request]];
      Advance(t, Go, before, AwaitAnswer(req, l));
    }

    method Receive(t: nat, req: CreateRequest, l: Local) returns (x: Result<Exchange, Failure>)
      requires At(t, AwaitAnswer(req, l))
      modifies this, q
      ensures Extends(old(run), run)
      ensures At(t, if x.Ok? then AfterCall(req, l, x.value) else Fail(req, x.error))
    {
      hide Extends, ValidRun, Leads, AfterCall, Queries.Rows;
      Growing();
      var ok := Await(t);
      if !ok { return Err(Internal); }
      var answer: ProviderClient.Exchange := *;
      if answer.NotBuilt? {
        answer := NoAnswer(false, false, false);
      }
      AnswerStep(Now(), t, req, l, answer);
      Advance(t, Reply(answer), Now(), AfterCall(req, l, answer));
      x := Ok(answer);
    }

    // ---- the outcome ----

    /** No status guard; the unique index on provider ids may refuse. */
    method PersistCreated(t: nat, req: CreateRequest, l: Local, id: ProviderId, url: string) returns (ok: bool)
      requires At(t, Thread.PersistCreated(req, l, id, url))
      modifies this, q
      ensures Extends(old(run), run)
      ensures At(t, if ok then CompleteCreated(req, l) else Fail(req, Internal))
    {
      hide Extends, ValidRun, Leads, Tables.SetPaymentCreated, ProviderIdTaken;
      Growing();
      ok := Await(t);
      if !ok { return; }
      var nextCheck: Time := *;
      ghost var before := Now();
      CreatedStep(before, t, req, l, id, url, Choice.At(nextCheck, nextCheck));
      ok := q.SetPaymentCreated(l.payment, id, url, nextCheck);
      Advance(t, Choice.At(nextCheck, nextCheck), before, if ok then CompleteCreated(req, l) else Fail(req, Internal));
    }

    method PersistUnknown(t: nat, req: CreateRequest, l: Local, code: ErrorCode) returns (ok: bool)
      requires At(t, Thread.PersistUnknown(req, l, code))
      modifies this, q
      ensures Extends(old(run), run)
      ensures At(t, if ok then CompleteUnknown(req, l, code) else Fail(req, Internal))
    {
      hide Extends, ValidRun, Leads, Tables.SetPaymentCreationUnknown;
      Growing();
      ok := Await(t);
      if !ok { return; }
      var nextCheck: Time := *;
      ghost var before := Now();
      UnknownStep(before, t, req, l, code, Choice.At(nextCheck, nextCheck));
      q.SetPaymentCreationUnknown(l.payment, nextCheck);
      Advance(t, Choice.At(nextCheck, nextCheck), before, CompleteUnknown(req, l, code));
    }

    method PersistCanceled(t: nat, req: CreateRequest, l: Local, code: ErrorCode) returns (ok: bool)
      requires At(t, Thread.PersistCanceled(req, l, code))
      modifies this, q
      ensures Extends(old(run), run)
      ensures At(t, if ok then CompleteCanceled(req, l, code) else Fail(req, Internal))
    {
      hide Extends, ValidRun, Leads, Tables.SetPaymentCanceled;
      Growing();
      ok := Await(t);
      if !ok { return; }
      var now: Time := *;
      ghost var before := Now();
      CanceledStep(before, t, req, l, code, Choice.At(now, now));
      q.SetPaymentCanceled(l.payment, now);
      Advance(t, Choice.At(now, now), before, CompleteCanceled(req, l, code));
    }

    /** A failure to record the operation's result is logged and otherwise ignored. */
    method CompleteOperation(t: nat, ghost th: Thread, o: Uuid, status: OperationStatus, lastError: Option<ErrorCode>)
      returns (ok: bool)
      requires At(t, th) && Completing(th) && o == th.local.operation
      requires status == CompletedAs(th) && lastError == CompletedError(th)
      modifies this, q
      ensures Extends(old(run), run)
      ensures At(t, if ok then Completed(th) else Fail(th.req, Internal))
    {
      hide Extends, ValidRun, Leads, CompletedAs, CompletedError, Tables.CompletePaymentOperation;
      Growing();
      ok := Await(t);
      if !ok { return; }
      var logged: bool := *;
      ghost var before := Now();
      var next := Completed(threads[t]);
      if logged {
        CompleteStep(before, t, th, Swallowed);
        Advance(t, Swallowed, before, next);
      } else {
        var now: Time := *;
        CompleteStep(before, t, th, Choice.At(now, now));
        q.CompletePaymentOperation(o, status, lastError, now);
        Advance(t, Choice.At(now, now), before, next);
      }
    }

    /** The read that builds the response. */
    method ReadBack(t: nat, ghost th: Thread, req: CreateRequest, p: Uuid, pending: bool) returns (response: CreateResponse)
      requires At(t, th) && (th.RereadCreated? || th.RereadUnknown?) && th.req == req && th.local.payment == p
      requires pending <==> th.RereadUnknown?
      modifies this, q
      ensures Extends(old(run), run)
      ensures At(t, CreateDone(req, response))
    {
      hide Extends, ValidRun, Leads, Tables.GetPaymentForApplication, Queries.Rows;
      Growing();
      var ok := Await(t);
      if !ok { return Failed(Internal); }
      var row := q.GetPaymentForApplication(p, req.slot.app);
      RereadStep(Now(), t, th);
      response := if row.None? then Failed(NotFound) else Accepted(p, row.value, false, pending);
      Advance(t, Go, Now(), CreateDone(req, response));
    }

    method Replay(t: nat, req: CreateRequest, record: IdempotencyRequest) returns (response: CreateResponse)
      requires At(t, StartReplay(req, record))
      modifies this, q
      ensures Extends(old(run), run)
      ensures At(t, CreateDone(req, response))
    {
      hide Extends, ValidRun, Leads, Tables.GetPaymentForApplication, Queries.Rows;
      Growing();
      if record.hash != req.hash { return Failed(IdempotencyConflict); }
      if record.payment.None? { return Failed(NotFound); }
      var ok := Await(t);
      if !ok { return Failed(Internal); }
      var p := record.payment.value;
      var row := q.GetPaymentForApplication(p, req.slot.app);
      ReplayStep(Now(), t, req, p);
      response := if row.None? then Failed(NotFound)
                  else Accepted(p, row.value, true, !row.value.status.Terminal() && row.value.checkoutUrl.None?);
      Advance(t, Go, Now(), CreateDone(req, response));
    }

    method CallProvider(t: nat, req: CreateRequest, l: Local) returns (response: CreateResponse)
      requires At(t, Credentials(req, l))
      modifies this, q
      ensures Extends(old(run), run)
      ensures At(t, CreateDone(req, response))
    {
      hide Extends, At, Took, AfterCall, CreateResult;
      Growing();
      var ok := ProviderCredentials(t, req, l);
      if !ok { return Failed(Internal); }
      var failed := BecomeCreating(t, req, l);
      if failed.Some? { return Failed(failed.value); }
      ok := BeginOperation(t, req, l);
      if !ok { return Failed(Internal); }
      var x := Exchange(t, req, l);
      if x.Err? { return Failed(x.error); }
      response := Settle(t, req, l, x.value);
    }

    /** From the provider's answer to the response. */
    method Settle(t: nat, req: CreateRequest, l: Local, x: Exchange) returns (response: CreateResponse)
      requires At(t, AfterCall(req, l, x))
      modifies this, q
      ensures Extends(old(run), run)
      ensures At(t, CreateDone(req, response))
    {
      hide Extends, At, CreateResult;
      Growing();
      var result := CreateResult(x);
      if result.Err? {
        response := HandleCreateFailure(t, req, l, FromProvider(result.error));
        return;
      }
      var ok := PersistCreated(t, req, l, result.value.id, result.value.checkoutUrl);
      if !ok { return Failed(Internal); }
      ok := CompleteOperation(t, CompleteCreated(req, l), l.operation, OpSucceeded, None);
      if !ok { return Failed(Internal); }
      response := ReadBack(t, RereadCreated(req, l), req, l.payment, false);
    }

    method HandleCreateFailure(t: nat, req: CreateRequest, l: Local, e: CallError) returns (response: CreateResponse)
      requires At(t, if Definitive(CodeOf(e)) then Thread.PersistCanceled(req, l, CodeOf(e))
                     else Thread.PersistUnknown(req, l, CodeOf(e)))
      modifies this, q
      ensures Extends(old(run), run)
      ensures At(t, CreateDone(req, response))
    {
      hide Extends, At, CodeOf, Definitive;
      Growing();
      var code := CodeOf(e);
      if !Definitive(code) {
        var ok := PersistUnknown(t, req, l, code);
        if !ok { return Failed(Internal); }
        ok := CompleteOperation(t, CompleteUnknown(req, l, code), l.operation, OpUnknown, Some(code));
        if !ok { return Failed(Internal); }
        response := ReadBack(t, RereadUnknown(req, l), req, l.payment, true);
        return;
      }
      var ok := PersistCanceled(t, req, l, code);
      if !ok { return Failed(Internal); }
      ok := CompleteOperation(t, CompleteCanceled(req, l, code), l.operation, OpFailed, Some(code));
      if !ok { return Failed(Internal); }
      response := Failed(Refused(code));
    }

    /**
     * CreatePayment and CreateAttempt, from the idempotency read to the response, in any company: the response is
     * the one bound to the client's key, hollow only when it says so, and nothing that happened before is lost.
     */
    method Create(t: nat, req: CreateRequest) returns (response: CreateResponse)
      requires Valid() && t !in threads
      modifies this, q
      ensures Extends(old(run), run)
      ensures At(t, CreateDone(req, response))
      ensures ResponseOK(Records(), req, response)
    {
      hide Extends, ResponseOK, ValidRun, Inv;
      Growing();
      Arrive(t, ReadKey(req));
      response := CreateFrom(t, req);
      ValidInv();
      ResponseBound(Now(), t);
    }

    method CreateFrom(t: nat, req: CreateRequest) returns (response: CreateResponse)
      requires At(t, ReadKey(req))
      modifies this, q
      ensures Extends(old(run), run)
      ensures At(t, CreateDone(req, response))
    {
      hide Extends, At, Took, Before, StartReplay, Tables.GetIdempotencyRequest, Tables.OrderHasSucceededPayment;
      Growing();
      var existing := FindRequest(t, req, false);
      if existing.Err? { return Failed(existing.error); }
      if existing.value.Some? {
        response := Replay(t, req, existing.value.value);
        return;
      }
      var paid := OrderPaid(t, req);
      if paid.Err? { return Failed(paid.error); }
      if paid.value { return Failed(OrderAlreadySucceeded); }
      var account := DefaultAccount(t, req);
      if account.Err? { return Failed(account.error); }
      if account.value.None? { return Failed(NoProviderAccount); }
      response := CreateWith(t, req, account.value.value);
    }

    method CreateWith(t: nat, req: CreateRequest, account: AccountId) returns (response: CreateResponse)
      requires At(t, OpenLocal(req, account))
      modifies this, q
      ensures Extends(old(run), run)
      ensures At(t, CreateDone(req, response))
    {
      hide Extends, At, Took, Before, StartReplay, Tables.GetIdempotencyRequest;
      Growing();
      var local := CreateLocal(t, req, account);
      match local
      case LocalCreated(l) => response := CallProvider(t, req, l);
      case LocalFailed(failure) => response := Failed(failure);
      case LocalRaced =>
        var raced := FindRequest(t, req, true);
        if raced.Err? { return Failed(raced.error); }
        if raced.value.None? { return Failed(KeyRace); }
        response := Replay(t, req, raced.value.value);
    }

    // ---- get ----

    /** The first read, and whether the row is due for a refresh. */
    method ReadForGet(t: nat, app: AppId, p: Uuid) returns (found: Option<Payment>, due: bool)
      requires At(t, GetRead(app, p))
      modifies this, q
      ensures Extends(old(run), run)
      ensures due ==> found.Some? && found.value.providerId.Some? && At(t, GetRefresh(app, p, found.value))
      ensures !due ==> At(t, GetDone(app, p, found))
    {
      hide Extends, ValidRun, Leads, Tables.GetPaymentForApplication, Queries.Rows;
      Growing();
      var ok := Await(t);
      if !ok { return None, false; }
      var now: Time := *;
      found := q.GetPaymentForApplication(p, app);
      due := found.Some? && Due(found.value, now);
      GetReadStep(Now(), t, app, p, Choice.At(now, now));
      Advance(t, Choice.At(now, now), Now(), if due then GetRefresh(app, p, found.value) else GetDone(app, p, found));
    }

    /** refresh, up to the decision on the snapshot; None when the first read is the answer. */
    method ReadProvider(t: nat, app: AppId, p: Uuid, row: Payment) returns (ok: bool, next: Option<Status>)
      requires At(t, GetRefresh(app, p, row)) && row.providerId.Some?
      modifies this, q
      ensures Extends(old(run), run)
      ensures !ok ==> At(t, GetDone(app, p, None))
      ensures ok ==> At(t, if next.Some? then GetApply(app, p, row, next.value) else GetDone(app, p, Some(row)))
      ensures ok && next.Some? ==> CanTransition(row.status, next.value)
    {
      hide Extends, ValidRun, Leads, GetResult, CanTransition, InternalStatus, Queries.Rows;
      Growing();
      next := None;
      ok := Await(t);
      if !ok { return; }
      var x: ProviderClient.Exchange := *;
      var result := GetResult(row.providerId.value, x);
      if result.Err? {
        RefreshFails(Now(), t, app, p, row, Reply(x));
        Advance(t, Reply(x), Now(), GetDone(app, p, Some(row)));
        return;
      }
      var status := InternalStatus(result.value.status);
      ghost var before := Now();
      RefreshStep(before, t, app, p, row, Reply(x));
      readings := readings + {Reading(row.providerId.value, status)};
      if CanTransition(row.status, status) { next := Some(status); }
      Advance(t, Reply(x), before, if next.Some? then GetApply(app, p, row, status) else GetDone(app, p, Some(row)));
    }

    /** applyProviderState's write; a failure of it is logged and the first read is the answer. */
    method ApplyState(t: nat, app: AppId, p: Uuid, row: Payment, next: Status) returns (ok: bool, applied: bool)
      requires At(t, GetApply(app, p, row, next))
      modifies this, q
      ensures Extends(old(run), run)
      ensures !ok ==> At(t, GetDone(app, p, None))
      ensures ok ==> At(t, if applied then GetReread(app, p, row) else GetDone(app, p, Some(row)))
    {
      hide Extends, ValidRun, Leads, Tables.ApplyProviderStatus;
      Growing();
      ok := Await(t);
      applied := *;
      if !ok { return; }
      ghost var before := Now();
      if !applied {
        ApplyStep(before, t, app, p, row, next, Swallowed);
        Advance(t, Swallowed, before, GetDone(app, p, Some(row)));
        return;
      }
      var now: Time := *;
      var nextCheck: Time := *;
      ApplyStep(before, t, app, p, row, next, Choice.At(now, nextCheck));
      q.ApplyProviderStatus(p, next, now, nextCheck);
      Advance(t, Choice.At(now, nextCheck), before, GetReread(app, p, row));
    }

    method ReadLatest(t: nat, app: AppId, p: Uuid, row: Payment) returns (found: Option<Payment>)
      requires At(t, GetReread(app, p, row))
      modifies this, q
      ensures Extends(old(run), run)
      ensures At(t, GetDone(app, p, found))
    {
      hide Extends, ValidRun, Leads, Tables.GetPaymentForApplication, Queries.Rows;
      Growing();
      var ok := Await(t);
      if !ok { return None; }
      var swallowed: bool := *;
      var latest := q.GetPaymentForApplication(p, app);
      found := if swallowed || latest.None? then Some(row) else latest;
      ghost var c := if swallowed then Swallowed else Go;
      LatestStep(Now(), t, app, p, row, c);
      Advance(t, c, Now(), GetDone(app, p, found));
    }

    /** GetPayment with its best-effort refresh: what comes back is the application's own row, as it was at some moment. */
    method GetPayment(t: nat, app: AppId, p: Uuid) returns (found: Option<Payment>)
      requires Valid() && t !in threads
      modifies this, q
      ensures Extends(old(run), run)
      ensures At(t, GetDone(app, p, found))
      ensures found.Some? ==> found.value.slot.app == app && p in q.payments && SameIdentity(found.value, q.payments[p])
    {
      hide Extends, ValidRun, Inv;
      Growing();
      Arrive(t, GetRead(app, p));
      found := GetFrom(t, app, p);
      ValidInv();
      if found.Some? { FoundIsOwn(Now(), t); }
    }

    method GetFrom(t: nat, app: AppId, p: Uuid) returns (found: Option<Payment>)
      requires At(t, GetRead(app, p))
      modifies this, q
      ensures Extends(old(run), run)
      ensures At(t, GetDone(app, p, found))
    {
      hide Extends, At, CanTransition;
      Growing();
      var row, due := ReadForGet(t, app, p);
      if !due { return row; }
      var ok, next := ReadProvider(t, app, p, row.value);
      if !ok { return None; }
      if next.None? { return row; }
      var applied: bool;
      ok, applied := ApplyState(t, app, p, row.value, next.value);
      if !ok { return None; }
      if !applied { return row; }
      found := ReadLatest(t, app, p, row.value);
    }
  }
}
