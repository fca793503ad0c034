/**
 * What was asked for is what is stored, sent and answered: the rows of a payment, its provider calls and the responses
 * to its key, compared field by field with the request that committed it.
 */
module Requested {
  import opened Basics
  import opened PaymentStates
  import opened ProviderClient
  import opened Tables
  import opened Protocol
  import opened Effects
  import opened Invariant
  import opened Runs
  import opened Histories
  import opened Idempotency
  import opened Columns
  import WorldSteps
  import Validation
  import Fingerprint
  import Conflicts

  /** The provider account a creation works with. */
  function AccountOf(th: Thread): Option<AccountId> {
    match th
    case OpenLocal(_, account) => Some(account)
    case TxCheckPaid(_, account) => Some(account)
    case TxCheckKey(_, account) => Some(account)
    case TxNumber(_, account, _) => Some(account)
    case TxInsertPayment(_, account, _, _) => Some(account)
    case TxInsertOperation(_, _, row) => Some(row.account)
    case TxInsertKey(_, l, _) => Some(l.row.account)
    case TxCommit(_, l, _) => Some(l.row.account)
    case _ => None
  }

  /** A payment row as it is first committed. */
  ghost predicate NewRowIs(row: Payment, req: CreateRequest) {
    && row.slot == req.slot && row.status == Created
    && row.providerId.None? && row.checkoutUrl.None? && row.completedAt.None? && row.nextCheckAt.None?
    && Asked(row, req.input)
  }

  /** The row holds what was asked for. */
  ghost predicate Asked(row: Payment, input: CreateInput) {
    && row.details.amount == input.amount
    && row.details.currency == input.currency
    && row.details.description == input.description
    && row.details.returnUrl == input.returnUrl
    && row.details.metadata == if input.metadata.Some? then input.metadata.value else map[]
  }

  /** The operation repeats it: a missing return URL is stored as the empty text, missing metadata as missing. */
  ghost predicate Repeats(op: Operation, row: Payment) {
    && op.body.amount == row.details.amount
    && op.body.currency == row.details.currency
    && op.body.description == row.details.description
    && op.body.returnUrl == (if row.details.returnUrl.Some? then row.details.returnUrl.value else "")
    && row.details.metadata == if op.body.metadata.Some? then op.body.metadata.value else map[]
  }

  /** The three rows of one creation, at any later time. */
  ghost predicate Recorded(w: World, req: CreateRequest, p: Uuid) {
    && p in w.db.payments && w.db.payments[p].slot == req.slot && Asked(w.db.payments[p], req.input)
    && p in w.opOf && w.opOf[p] in w.db.operations
    && w.db.operations[w.opOf[p]].payment == p && w.db.operations[w.opOf[p]].hash == req.hash
    && Repeats(w.db.operations[w.opOf[p]], w.db.payments[p])
    && req.Key() in w.db.requests && w.db.requests[req.Key()] == IdempotencyRequest(req.hash, Some(p))
  }

  lemma InsertLocalRecords(w: World, req: CreateRequest, account: AccountId, attempt: int, p: Uuid, o: Uuid, key: Uuid)
    ensures var row := NewPayment(req.slot, account, attempt, req.input);
            var w' := InsertLocal(w, req, Local(p, row, o, key), NewOperation(p, key, req.hash, req.input));
            Recorded(w', req, p) && NewRowIs(w'.db.payments[p], req) && w'.db.payments[p].account == account
  {
  }

  ghost predicate Adds(w: World, w': World, p: Uuid, k: ClientKey) {
    (p in w'.db.payments && p !in w.db.payments) || (k in w'.db.requests && k !in w.db.requests)
  }

  /** The payment a creation step would commit. */
  function CommittedBy(th: Thread, c: Choice): Uuid
    requires th.TxCommit? || (th.OpenLocal? && c.Atomic?)
  {
    if th.TxCommit? then th.local.payment else c.p
  }

  /** What a step that adds a payment row or a client key adds: all three rows, as its request asks. */
  ghost predicate AddsAsAsked(w: World, th: Thread, w': World, q: Uuid, p: Uuid, k: ClientKey)
    requires CreateThread(th)
  {
    && Recorded(w', th.req, q) && NewRowIs(w'.db.payments[q], th.req) && Some(w'.db.payments[q].account) == AccountOf(th)
    && (p in w'.db.payments && p !in w.db.payments ==> p == q)
    && (k in w'.db.requests && k !in w.db.requests ==> k == th.req.Key())
  }

  lemma CommitRecords(w: World, th: Thread, c: Choice, p: Uuid, k: ClientKey)
    requires ThreadOK(w, th) && Accepts(th, c) && Adds(w, Perform(w, th, c).world, p, k)
    ensures th.TxCommit? || (th.OpenLocal? && c.Atomic?)
    ensures AddsAsAsked(w, th, Perform(w, th, c).world, CommittedBy(th, c), p, k)
  {
    hide Perform, AddsAsAsked;
    StepWrites(w, th, c);
    if th.TxCommit? {
      hide Accepts;
      TxRecords(w, th, p, k);
    } else {
      hide ThreadOK, Adds;
      if th.OpenLocal? && c.Atomic? {
        WholeRecords(w, th, c, p, k);
      } else {
        AddsNothing(w, th, c, p, k);
      }
    }
  }

  lemma TxRecords(w: World, th: Thread, p: Uuid, k: ClientKey)
    requires ThreadOK(w, th) && th.TxCommit?
    ensures AddsAsAsked(w, th, InsertLocal(w, th.req, th.local, th.op), th.local.payment, p, k)
  {
    hide Settled, Recorded, NewRowIs;
    var l := th.local;
    InsertLocalRecords(w, th.req, l.row.account, l.row.attempt, l.payment, l.operation, l.providerKey);
  }

  lemma WholeRecords(w: World, th: Thread, c: Choice, p: Uuid, k: ClientKey)
    requires Accepts(th, c) && th.OpenLocal? && c.Atomic?
    requires var out := CreateLocal(w, th.req, th.account, c.p, c.o, c.key); Adds(w, out.world, p, k)
    ensures AddsAsAsked(w, th, CreateLocal(w, th.req, th.account, c.p, c.o, c.key).world, c.p, p, k)
  {
    hide NextAttemptNumber, InsertViolates, OrderHasSucceededPayment, Recorded, NewRowIs;
    var n := NextAttemptNumber(w.db, th.req.slot);
    InsertLocalRecords(w, th.req, th.account, n, c.p, c.o, c.key);
    var row := NewPayment(th.req.slot, th.account, n, th.req.input);
    var inserted := InsertLocal(w, th.req, Local(c.p, row, c.o, c.key), NewOperation(c.p, c.key, th.req.hash, th.req.input));
    assert Adds(w, inserted, p, k);
    IssuingRecords(inserted, th.req, c.p, c.o, c.key);
  }

  lemma IssuingRecords(w: World, req: CreateRequest, p: Uuid, o: Uuid, key: Uuid)
    requires Recorded(w, req, p)
    ensures Recorded(Issue(Issue(Issue(w, p, p), o, p), key, p), req, p)
  {
  }

  lemma AddsNothing(w: World, th: Thread, c: Choice, p: Uuid, k: ClientKey)
    requires Accepts(th, c) && !th.TxCommit? && !(th.OpenLocal? && c.Atomic?)
    ensures !Adds(w, WorldAfter(w, th, c), p, k)
  {
    hide RequestOf, GetResult, CreateLocal, InsertLocal, ProviderIdTaken;
  }

  lemma RecordedStays(s: State, l: Label, req: CreateRequest, p: Uuid)
    requires Inv(s) && Enabled(s, l) && Recorded(s.world, req, p)
    ensures Recorded(Apply(s, l).world, req, p)
  {
    hide Inv, Enabled, Apply, Asked, Repeats, Later;
    StepIsLegal(s, l, p);
    KeyStep(s, l, req.Key());
    OperationStands(s, l, p);
    IdentityLasts(s.world.db.payments[p], Apply(s, l).world.db.payments[p], s.world.db.operations[s.world.opOf[p]],
      Apply(s, l).world.db.operations[s.world.opOf[p]], req.input);
  }

  lemma OperationStands(s: State, l: Label, p: Uuid)
    requires Inv(s) && Enabled(s, l) && p in s.world.opOf && s.world.opOf[p] in s.world.db.operations
    ensures p in Apply(s, l).world.opOf && Apply(s, l).world.opOf[p] == s.world.opOf[p]
    ensures s.world.opOf[p] in Apply(s, l).world.db.operations
    ensures SameOperation(s.world.db.operations[s.world.opOf[p]], Apply(s, l).world.db.operations[s.world.opOf[p]])
  {
    hide Inv, Enabled, Apply, TouchesPayments, StepClaims;
    StepTouches(s, l);
  }

  lemma IdentityLasts(a: Payment, b: Payment, x: Operation, y: Operation, input: CreateInput)
    requires Later(a, b) && SameOperation(x, y) && Asked(a, input) && Repeats(x, a)
    ensures Asked(b, input) && Repeats(y, b) && b.slot == a.slot && y.payment == x.payment && y.hash == x.hash
  {
  }

  // ---- the account ----

  /** At step j request t found this account to be the application's default. */
  ghost predicate FoundAt(r: Execution, j: nat, t: nat, account: AccountId)
    requires |r.states| == |r.labels| + 1
  {
    j < |r.labels| && r.labels[j] == Step(t, Account(Some(account)))
    && t in r.states[j].threads && r.states[j].threads[t].ReadAccount?
  }

  ghost predicate FoundBefore(r: Execution, i: nat, t: nat, account: AccountId)
    requires |r.states| == |r.labels| + 1
  {
    exists j: nat :: j < i && FoundAt(r, j, t, account)
  }

  lemma AccountStep(w: World, th: Thread, c: Choice, account: AccountId)
    requires Accepts(th, c) && AccountOf(Perform(w, th, c).thread) == Some(account)
    ensures AccountOf(th) == Some(account) || (th.ReadAccount? && c == Account(Some(account)))
  {
    hide Perform, Accepts;
    StepFollows(w, th, c);
    WhereAccounts(th, Perform(w, th, c).thread);
    hide AccountOf, Follows;
    if InTx(th) { TxAccount(w, th, c, account); } else { OpenAccount(w, th, c, account); }
  }

  lemma WhereAccounts(th: Thread, next: Thread)
    requires Follows(th, next) && AccountOf(next).Some?
    ensures th.ReadAccount? || th.OpenLocal? || InTx(th)
  {
  }

  lemma TxAccount(w: World, th: Thread, c: Choice, account: AccountId)
    requires Accepts(th, c) && InTx(th) && AccountOf(Perform(w, th, c).thread) == Some(account)
    ensures AccountOf(th) == Some(account)
  {
    hide NextAttemptNumber, InsertViolates, OrderHasSucceededPayment, InsertLocal, NewOperation;
    hide PerformBegin, PerformCall, PerformSettle, PerformGet;
  }

  lemma OpenAccount(w: World, th: Thread, c: Choice, account: AccountId)
    requires Accepts(th, c) && (th.ReadAccount? || th.OpenLocal?) && AccountOf(Perform(w, th, c).thread) == Some(account)
    ensures AccountOf(th) == Some(account) || (th.ReadAccount? && c == Account(Some(account)))
  {
    hide NextAttemptNumber, InsertViolates, OrderHasSucceededPayment, InsertLocal, NewOperation;
    hide PerformTx, PerformCall, PerformSettle, PerformGet;
  }

  lemma AccountMoves(s: State, l: Label, t: nat, account: AccountId)
    requires Enabled(s, l) && t in Apply(s, l).threads && AccountOf(Apply(s, l).threads[t]) == Some(account)
    ensures t in s.threads
    ensures AccountOf(s.threads[t]) == Some(account) || (l == Step(t, Account(Some(account))) && s.threads[t].ReadAccount?)
  {
    hide Perform, Accepts, Fresh, Unblocked;
    if l.Step? && l.t == t {
      hide AccountOf;
      AccountStep(s.world, s.threads[t], l.choice, account);
    }
  }

  lemma {:induction false} AccountWasFound(r: Execution, i: nat, t: nat, account: AccountId)
    requires ValidRun(r) && i < |r.states| && t in r.states[i].threads && AccountOf(r.states[i].threads[t]) == Some(account)
    ensures FoundBefore(r, i, t, account)
  {
    hide Enabled, Apply, AccountOf;
    if i > 0 {
      AccountMoves(r.states[i - 1], r.labels[i - 1], t, account);
      if AccountOf(r.states[i - 1].threads[t]) == Some(account) {
        AccountWasFound(r, i - 1, t, account);
      } else {
        assert FoundAt(r, i - 1, t, account);
      }
    }
  }

  // ---- over runs ----

  /** Request t commits payment p at step j, and found the row's account earlier. */
  ghost predicate CommittedAt(r: Execution, j: nat, t: nat, p: Uuid)
    requires |r.states| == |r.labels| + 1
  {
    && j < |r.labels| && r.labels[j].Step? && r.labels[j].t == t
    && t in r.states[j].threads && CreateThread(r.states[j].threads[t])
    && p !in r.states[j].world.db.payments && p in r.states[j + 1].world.db.payments
    && NewRowIs(r.states[j + 1].world.db.payments[p], r.states[j].threads[t].req)
    && FoundBefore(r, j, t, r.states[j + 1].world.db.payments[p].account)
  }

  /** ... and its three rows say in state i what the request asked for. */
  ghost predicate CreatedBy(r: Execution, i: nat, j: nat, t: nat, p: Uuid)
    requires |r.states| == |r.labels| + 1 && i < |r.states|
  {
    CommittedAt(r, j, t, p) && j < i && Recorded(r.states[i].world, r.states[j].threads[t].req, p)
  }

  lemma CommitStep(s: State, l: Label, p: Uuid, k: ClientKey)
    requires Inv(s) && Enabled(s, l) && Adds(s.world, Apply(s, l).world, p, k)
    ensures l.Step? && l.t in s.threads
    ensures var th := s.threads[l.t];
            && (th.TxCommit? || (th.OpenLocal? && l.choice.Atomic?))
            && CommittedBy(th, l.choice) !in s.world.db.payments
            && AddsAsAsked(s.world, th, Apply(s, l).world, CommittedBy(th, l.choice), p, k)
  {
    hide Inv, Perform, Accepts, Unblocked, AddsAsAsked, Fresh;
    if l.Step? {
      InvParts(s, l.t);
      CommitRecords(s.world, s.threads[l.t], l.choice, p, k);
      CommitsNew(s.world, s.threads[l.t], l.choice);
      hide WorldOK, ThreadOK;
    }
  }

  lemma CommitsNew(w: World, th: Thread, c: Choice)
    requires WorldOK(w) && ThreadOK(w, th) && Fresh(w, c) && (th.TxCommit? || (th.OpenLocal? && c.Atomic?))
    ensures CommittedBy(th, c) !in w.db.payments
  {
    hide WorldOK, Settled;
    if th.OpenLocal? && c.p in w.db.payments { WorldSteps.AtPayment(w, c.p); }
  }

  lemma CreatedNow(r: Execution, j: nat, p: Uuid, k: ClientKey) returns (t: nat, q: Uuid)
    requires ValidRun(r) && j < |r.labels| && Adds(r.states[j].world, r.states[j + 1].world, p, k)
    ensures CreatedBy(r, j + 1, j, t, q)
    ensures p in r.states[j + 1].world.db.payments && p !in r.states[j].world.db.payments ==> p == q
    ensures k in r.states[j + 1].world.db.requests && k !in r.states[j].world.db.requests ==> k == r.states[j].threads[t].req.Key()
  {
    hide Inv, Enabled, Apply, Adds, NewRowIs;
    RunInv(r, j);
    var s, l := r.states[j], r.labels[j];
    CommitStep(s, l, p, k);
    t, q := l.t, CommittedBy(s.threads[l.t], l.choice);
    hide CommittedBy;
    AccountWasFound(r, j, t, r.states[j + 1].world.db.payments[q].account);
    hide AccountOf, FoundAt;
  }

  lemma CreatedStays(r: Execution, i: nat, j: nat, t: nat, p: Uuid)
    requires ValidRun(r) && i < |r.labels| && CreatedBy(r, i, j, t, p)
    ensures CreatedBy(r, i + 1, j, t, p)
  {
    hide Inv, Enabled, Apply, CommittedAt, Recorded;
    RunInv(r, i);
    RecordedStays(r.states[i], r.labels[i], ReqAt(r, j, t, p), p);
  }

  ghost function ReqAt(r: Execution, j: nat, t: nat, p: Uuid): CreateRequest
    requires |r.states| == |r.labels| + 1 && CommittedAt(r, j, t, p)
  {
    r.states[j].threads[t].req
  }

  /**
   * Every payment of every run was committed by a request, and its rows say what that request asked for: order, amount,
   * currency, description, return URL and metadata, under the account that request found.
   */
  lemma {:induction false} RowIsAsAsked(r: Execution, i: nat, p: Uuid)
    requires ValidRun(r) && i < |r.states| && p in r.states[i].world.db.payments
    ensures exists j: nat, t :: CreatedBy(r, i, j, t, p)
  {
    hide Enabled, Apply, CreatedBy;
    if i > 0 {
      if p in r.states[i - 1].world.db.payments {
        RowIsAsAsked(r, i - 1, p);
        var j: nat, t :| CreatedBy(r, i - 1, j, t, p);
        CreatedStays(r, i - 1, j, t, p);
      } else {
        var t, q := CreatedNow(r, i - 1, p, ClientKey(0, 0));
      }
    }
  }

  /** The same from the key: the payment a key is bound to was committed by a request with that key, as it asked. */
  lemma {:induction false} KeyIsAsAsked(r: Execution, i: nat, k: ClientKey)
    requires ValidRun(r) && i < |r.states| && k in r.states[i].world.db.requests
    ensures exists j: nat, t, p :: CreatedBy(r, i, j, t, p) && ReqAt(r, j, t, p).Key() == k
  {
    hide Enabled, Apply, Recorded, CommittedAt;
    if i > 0 {
      if k in r.states[i - 1].world.db.requests {
        KeyIsAsAsked(r, i - 1, k);
        var j: nat, t, p :| CreatedBy(r, i - 1, j, t, p) && ReqAt(r, j, t, p).Key() == k;
        CreatedStays(r, i - 1, j, t, p);
      } else {
        assert Adds(r.states[i - 1].world, r.states[i].world, 0, k);
        var t, q := CreatedNow(r, i - 1, 0, k);
        assert ReqAt(r, i - 1, t, q).Key() == k;
      }
    }
  }

  /** What goes to the provider is what the rows say, with the payment's own identifiers added to the client's metadata. */
  ghost predicate Sends(call: ProviderRequest, row: Payment, op: Operation) {
    && call.amount == row.details.amount && call.currency == row.details.currency
    && call.description == row.details.description
    && call.returnUrl == (if row.details.returnUrl.Some? then row.details.returnUrl.value else "")
    && call.key == op.providerKey
    && call.metadata.Keys == row.details.metadata.Keys + {"order_id", "payment_id"}
    && call.metadata["order_id"] == Decimal(row.slot.order) && call.metadata["payment_id"] == Decimal(op.payment)
    && forall k :: k in row.details.metadata && k != "order_id" && k != "payment_id" ==> call.metadata[k] == row.details.metadata[k]
  }

  /** In every run each operation repeats its payment row, and each call made for it asks for exactly that payment. */
  lemma CallsAreAsAsked(r: Execution, i: nat, o: Uuid)
    requires ValidRun(r) && i < |r.states| && o in r.states[i].world.db.operations
    ensures var w := r.states[i].world;
            var op := w.db.operations[o];
            && op.payment in w.db.payments && Repeats(op, w.db.payments[op.payment])
            && forall n :: 0 <= n < |CallsOf(w, o)| ==> Sends(CallsOf(w, o)[n], w.db.payments[op.payment], op)
  {
    hide Inv, Enabled, Apply, CommittedAt, Sends, Rebuilt;
    RunInv(r, i);
    var w := r.states[i].world;
    AtOperationOf(r.states[i], o);
    var op := w.db.operations[o];
    RowIsAsAsked(r, i, op.payment);
    var j: nat, t :| CreatedBy(r, i, j, t, op.payment);
    hide Repeats, Asked;
    RebuiltSends(w.db.payments[op.payment], op);
  }

  lemma RebuiltSends(row: Payment, op: Operation)
    requires Repeats(op, row)
    ensures Sends(Rebuilt(row, op), row, op)
  {
    var sent := ProviderMetadata(row.details.metadata, row.slot, op.payment);
    Validation.TraceWins(row.details.metadata, row.slot, op.payment, "");
    forall k | k in row.details.metadata && k != "order_id" && k != "payment_id" ensures sent[k] == row.details.metadata[k] {
      Validation.TraceWins(row.details.metadata, row.slot, op.payment, k);
    }
    hide ProviderMetadata, Decimal;
  }

  // ---- what the client is told ----

  lemma {:induction false} RequestLasts(r: Execution, j: nat, i: nat, t: nat)
    requires ValidRun(r) && j <= i < |r.states| && Conflicts.Arrived(r.states[j], t)
    ensures Conflicts.Arrived(r.states[i], t) && r.states[i].threads[t].req == r.states[j].threads[t].req
    decreases i - j
  {
    hide Enabled, Apply;
    if j < i {
      RequestLasts(r, j, i - 1, t);
      Conflicts.RequestStays(r.states[i - 1], r.labels[i - 1], t);
    }
  }

  /** The row in a response is the one asked for; a missing return URL and an empty one are the same to the fingerprint. */
  ghost predicate Answers(row: Payment, req: CreateRequest) {
    && row.slot == req.slot
    && row.details.amount == req.input.amount && row.details.currency == req.input.currency
    && row.details.description == req.input.description
    && (if row.details.returnUrl.Some? then row.details.returnUrl.value else "")
       == (if req.input.returnUrl.Some? then req.input.returnUrl.value else "")
    && row.details.metadata == if req.input.metadata.Some? then req.input.metadata.value else map[]
  }

  lemma SamePayloadAnswers(row: Payment, later: Payment, first: CreateRequest, req: CreateRequest)
    requires row.slot == first.slot && Asked(row, first.input) && SameIdentity(later, row)
    requires Fingerprint.PayloadOf(first) == Fingerprint.PayloadOf(req) && first.Key() == req.Key()
    ensures Answers(later, req)
  {
    DecimalInjective(first.slot.order, req.slot.order);
  }

  /**
   * Whoever is answered with a payment, for the first time or by a replay, is answered with the payment asked for: every
   * field of the row is the request's own.
   */
  lemma AnswerIsAsAsked(r: Execution, i: nat, t: nat, hash: string -> Hash)
    requires ValidRun(r) && i < |r.states| && Fingerprint.CollisionFree(hash) && Conflicts.AllHashed(r.states[i], hash)
    requires t in r.states[i].threads && r.states[i].threads[t].CreateDone? && r.states[i].threads[t].response.Accepted?
    ensures Answers(r.states[i].threads[t].response.row, r.states[i].threads[t].req)
  {
    hide Inv, Enabled, Apply, Fingerprint.HashedBy, Fingerprint.PayloadOf, Fingerprint.CollisionFree, Asked, Repeats, NewRowIs, FoundBefore;
    var s := r.states[i];
    var th := s.threads[t];
    RunInv(r, i);
    ResponseBound(s, t);
    KeyIsAsAsked(r, i, th.req.Key());
    var j: nat, u, p :| CreatedBy(r, i, j, u, p) && ReqAt(r, j, u, p).Key() == th.req.Key();
    var first := ReqAt(r, j, u, p);
    RequestLasts(r, j, i, u);
    assert Conflicts.Arrived(s, t);
    Fingerprint.SameFingerprint(hash, first, th.req);
    SamePayloadAnswers(s.world.db.payments[p], th.response.row, first, th.req);
  }
}
