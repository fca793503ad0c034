/**
 * createLocal at two granularities. As one step it leaves at most one live attempt per order; statement by statement
 * under the order lock it does so exactly when no success lands between its paid check and its insert, because
 * ApplyProviderStatus takes no lock (internal/payments/service.go:203-263).
 */
module Atomicity {
  import opened PaymentStates
  import opened ProviderClient
  import opened Tables
  import opened Protocol
  import opened Effects
  import opened Invariant
  import opened WorldSteps
  import opened Runs
  import opened Histories

  /** At most one attempt of every order is not canceled: open, or succeeded. */
  ghost predicate SingleLive(db: Store) {
    forall p, q :: p in db.payments && q in db.payments && p != q && db.payments[p].slot == db.payments[q].slot ==>
      db.payments[p].status == Canceled || db.payments[q].status == Canceled
  }

  /** This step does not commit a new attempt on an order that already has a succeeded one. */
  ghost predicate CommitsOnUnpaid(s: State, l: Label) {
    l.Step? && l.t in s.threads && s.threads[l.t].TxCommit? ==> !OrderHasSucceededPayment(s.world.db, s.threads[l.t].req.slot)
  }

  /** Where a new payment row can come from, and what held when it was inserted. */
  lemma NewRow(w: World, th: Thread, c: Choice, p: Uuid)
    requires WorldOK(w) && ThreadOK(w, th) && Accepts(th, c) && Fresh(w, c)
    requires p in Perform(w, th, c).world.db.payments && p !in w.db.payments
    ensures th.TxCommit? || (th.OpenLocal? && c.Atomic?)
    ensures Perform(w, th, c).world.db.payments[p].slot == th.req.slot
    ensures Perform(w, th, c).world.db.payments[p].status == Created
    ensures Settled(w.db, th.req.slot)
    ensures th.OpenLocal? ==> !OrderHasSucceededPayment(w.db, th.req.slot)
  {
    hide WorldOK, NextAttemptNumber, CreateResult;
    OnlyInserts(w, th, c, p);
    if th.OpenLocal? {
      NextIsLength(w, th.req.slot);
      ViolationIsActive(w, NewPayment(th.req.slot, th.account, NextAttemptNumber(w.db, th.req.slot), th.req.input));
    }
  }

  lemma OnlyInserts(w: World, th: Thread, c: Choice, p: Uuid)
    requires Accepts(th, c) && p in Perform(w, th, c).world.db.payments && p !in w.db.payments
    ensures th.TxCommit? || (th.OpenLocal? && c.Atomic?)
  {
    hide Perform, CreateLocal, RequestOf, GetResult, ProviderIdTaken;
    StepWrites(w, th, c);
  }

  lemma SingleLiveStep(s: State, l: Label)
    requires Inv(s) && Enabled(s, l) && SingleLive(s.world.db) && CommitsOnUnpaid(s, l)
    ensures SingleLive(Apply(s, l).world.db)
  {
    hide WorldOK, ThreadOK, Perform, Later;
    var s' := Apply(s, l);
    forall p, q | p in s'.world.db.payments && q in s'.world.db.payments && p != q
                  && s'.world.db.payments[p].slot == s'.world.db.payments[q].slot
      ensures s'.world.db.payments[p].status == Canceled || s'.world.db.payments[q].status == Canceled
    {
      if p in s.world.db.payments && q in s.world.db.payments {
        CanceledStays(s, l, p);
        CanceledStays(s, l, q);
      } else if p in s.world.db.payments {
        CanceledStays(s, l, p);
        OthersCanceled(s, l, s', q, p);
      } else {
        OnlyOneNew(s, l, p, q);
        CanceledStays(s, l, q);
        OthersCanceled(s, l, s', p, q);
      }
    }
  }

  lemma CanceledStays(s: State, l: Label, p: Uuid)
    requires Inv(s) && Enabled(s, l) && p in s.world.db.payments
    ensures p in Apply(s, l).world.db.payments
    ensures Apply(s, l).world.db.payments[p].slot == s.world.db.payments[p].slot
    ensures s.world.db.payments[p].status == Canceled ==> Apply(s, l).world.db.payments[p].status == Canceled
  {
    hide Inv, Enabled, Apply;
    StepIsLegal(s, l, p);
  }

  lemma OnlyOneNew(s: State, l: Label, p: Uuid, q: Uuid)
    requires Inv(s) && Enabled(s, l) && p != q
    requires p in Apply(s, l).world.db.payments && p !in s.world.db.payments && q in Apply(s, l).world.db.payments
    ensures q in s.world.db.payments
  {
    hide Inv, Enabled, Apply, StepClaims, TouchesOperations, TouchesRest;
    StepTouches(s, l);
  }

  lemma OthersCanceled(s: State, l: Label, s': State, p: Uuid, q: Uuid)
    requires Inv(s) && Enabled(s, l) && s' == Apply(s, l) && CommitsOnUnpaid(s, l)
    requires p in s'.world.db.payments && p !in s.world.db.payments && q in s.world.db.payments
    requires s.world.db.payments[q].slot == s'.world.db.payments[p].slot
    ensures s.world.db.payments[q].status == Canceled
  {
    hide WorldOK, ThreadOK, Perform, Accepts, Unblocked, Fresh;
    NewRow(s.world, s.threads[l.t], l.choice, p);
  }

  /** A run in which every commit found its order unpaid keeps one live attempt per order. */
  lemma {:induction false} SingleLiveRun(r: Execution, i: nat)
    requires ValidRun(r) && i < |r.states|
    requires forall k :: 0 <= k < i ==> CommitsOnUnpaid(r.states[k], r.labels[k])
    ensures SingleLive(r.states[i].world.db)
  {
    hide Inv, Apply, Enabled, SingleLive, CommitsOnUnpaid;
    if i == 0 {
      EmptyIsSingle();
    } else {
      SingleLiveRun(r, i - 1);
      RunInv(r, i - 1);
      SingleLiveStep(r.states[i - 1], r.labels[i - 1]);
    }
  }

  lemma EmptyIsSingle()
    ensures SingleLive(INIT.world.db)
  {
  }

  /** A commit on a paid order leaves two live attempts. */
  lemma PaidCommitBreaks(s: State, l: Label)
    requires Inv(s) && Enabled(s, l) && !CommitsOnUnpaid(s, l)
    ensures !SingleLive(Apply(s, l).world.db)
  {
    hide WorldOK;
    var th, s' := s.threads[l.t], Apply(s, l);
    assert ThreadOK(s.world, th);
    var p, q := th.local.payment, PaidRow(s.world.db, th.req.slot);
    assert s'.world.db.payments[p] == th.local.row && s'.world.db.payments[q] == s.world.db.payments[q];
  }

  ghost function PaidRow(db: Store, slot: Slot): (p: Uuid)
    requires OrderHasSucceededPayment(db, slot)
    ensures p in db.payments && db.payments[p].slot == slot && db.payments[p].status == Succeeded
  {
    var p :| p in db.payments && db.payments[p].slot == slot && db.payments[p].status == Succeeded;
    p
  }

  /** Exactly: one live attempt per order throughout a run, if and only if every commit found its order unpaid. */
  lemma SingleLiveExactly(r: Execution)
    requires ValidRun(r)
    ensures (forall i :: 0 <= i < |r.states| ==> SingleLive(r.states[i].world.db))
            <==> (forall i :: 0 <= i < |r.labels| ==> CommitsOnUnpaid(r.states[i], r.labels[i]))
  {
    hide Inv, Apply, Enabled, SingleLive, CommitsOnUnpaid;
    if forall i :: 0 <= i < |r.labels| ==> CommitsOnUnpaid(r.states[i], r.labels[i]) {
      forall i | 0 <= i < |r.states| ensures SingleLive(r.states[i].world.db) {
        SingleLiveRun(r, i);
      }
    } else {
      var i :| 0 <= i < |r.labels| && !CommitsOnUnpaid(r.states[i], r.labels[i]);
      RunInv(r, i);
      PaidCommitBreaks(r.states[i], r.labels[i]);
      assert !SingleLive(r.states[i + 1].world.db);
    }
  }

  // ---- the atomic machine ----

  ghost predicate AtomicRun(r: Execution) {
    ValidRun(r) && forall i :: 0 <= i < |r.labels| ==> AtomicLabel(r.states[i], r.labels[i])
  }

  lemma NoTxStep(s: State, l: Label, t: nat)
    requires Enabled(s, l) && AtomicLabel(s, l) && t in Apply(s, l).threads
    requires t in s.threads ==> !InTx(s.threads[t])
    ensures !InTx(Apply(s, l).threads[t])
  {
    hide Perform, Accepts, Fresh, Unblocked;
    if l.Step? && l.t == t {
      var th := s.threads[t];
      StepFollows(s.world, th, l.choice);
      if th.OpenLocal? { AtomicLeavesNoTx(s.world, th, l.choice); }
    }
  }

  lemma AtomicLeavesNoTx(w: World, th: Thread, c: Choice)
    requires th.OpenLocal? && c.Atomic?
    ensures Accepts(th, c) && !InTx(Perform(w, th, c).thread)
  {
    hide CreateLocal;
    FlowAtomic(w, th.req, th.account, c);
  }

  lemma {:induction false} NoTxInAtomicRun(r: Execution, i: nat, t: nat)
    requires AtomicRun(r) && i < |r.states| && t in r.states[i].threads
    ensures !InTx(r.states[i].threads[t])
  {
    hide Enabled, Apply, InTx, AtomicLabel;
    if i > 0 {
      if t in r.states[i - 1].threads {
        NoTxInAtomicRun(r, i - 1, t);
      }
      NoTxStep(r.states[i - 1], r.labels[i - 1], t);
    }
  }

  /** With createLocal as one step, no order ever has two attempts that are open or succeeded. */
  lemma AtomicSingleLive(r: Execution, i: nat)
    requires AtomicRun(r) && i < |r.states|
    ensures SingleLive(r.states[i].world.db)
  {
    hide Enabled, Apply, SingleLive, AtomicLabel;
    forall k | 0 <= k < i ensures CommitsOnUnpaid(r.states[k], r.labels[k]) {
      var l := r.labels[k];
      if l.Step? && l.t in r.states[k].threads {
        NoTxInAtomicRun(r, k, l.t);
      }
    }
    SingleLiveRun(r, i);
  }

  // ---- what survives at statement granularity without any condition ----

  /** Every attempt number below a payment's own belongs to a terminal attempt of the same order. */
  lemma GapFree(r: Execution, i: nat, p: Uuid, n: int)
    requires ValidRun(r) && i < |r.states| && p in r.states[i].world.db.payments
    requires 1 <= n < r.states[i].world.db.payments[p].attempt
    ensures var db := r.states[i].world.db;
            exists q :: q in db.payments && db.payments[q].slot == db.payments[p].slot && db.payments[q].attempt == n
                     && db.payments[q].status.Terminal()
  {
    hide WorldOK;
    RunInv(r, i);
    var w := r.states[i].world;
    AtPayment(w, p);
    AtSlot(w, w.db.payments[p].slot);
    assert w.attempts[w.db.payments[p].slot][n - 1] in w.db.payments;
  }

  /** Two rows of one order have different numbers, and at most one of them is open. */
  lemma OneOpenAttempt(r: Execution, i: nat, p: Uuid, q: Uuid)
    requires ValidRun(r) && i < |r.states|
    requires var db := r.states[i].world.db;
             p in db.payments && q in db.payments && p != q && db.payments[p].slot == db.payments[q].slot
    ensures var db := r.states[i].world.db;
            && db.payments[p].attempt >= 1
            && db.payments[p].attempt != db.payments[q].attempt
            && (db.payments[p].status.Terminal() || db.payments[q].status.Terminal())
  {
    hide WorldOK;
    RunInv(r, i);
    var w := r.states[i].world;
    AtPayment(w, p);
    AtPayment(w, q);
    if !w.db.payments[p].status.Terminal() && !w.db.payments[q].status.Terminal() {
      OneActive(w, p, q);
    }
  }

  /** "An unfinished attempt already exists" is said only when one does; the attempt number never clashes. */
  lemma ActiveMeansActive(s: State, l: Label)
    requires Inv(s) && Enabled(s, l) && l.Step?
    requires !s.threads[l.t].CreateDone? && Apply(s, l).threads[l.t].CreateDone?
    requires Apply(s, l).threads[l.t].response == Failed(ActiveAttemptExists)
    ensures var th := s.threads[l.t];
            && (th.TxInsertPayment? || th.OpenLocal?)
            && ActiveAttempt(s.world.db, th.req.slot)
            && forall row: Payment :: row.slot == th.req.slot && row.attempt == NextAttemptNumber(s.world.db, th.req.slot) ==>
                 !NumberTaken(s.world.db, row)
  {
    hide WorldOK, CreateResult, NextAttemptNumber;
    var th := s.threads[l.t];
    ActiveFrom(s.world, th, l.choice);
    assert ThreadOK(s.world, th);
    NextIsLength(s.world, th.req.slot);
    forall row: Payment | row.slot == th.req.slot && row.attempt == NextAttemptNumber(s.world.db, th.req.slot)
      ensures !NumberTaken(s.world.db, row)
    {
      NextIsFree(s.world, row);
    }
  }

  lemma ActiveFrom(w: World, th: Thread, c: Choice)
    requires Accepts(th, c) && Perform(w, th, c).thread.CreateDone?
    requires Perform(w, th, c).thread.response == Failed(ActiveAttemptExists)
    ensures th.TxInsertPayment? || (th.OpenLocal? && c.Atomic?)
    ensures th.TxInsertPayment? ==> InsertViolates(w.db, NewPayment(th.req.slot, th.account, th.attempt, th.req.input))
    ensures th.OpenLocal? ==>
              InsertViolates(w.db, NewPayment(th.req.slot, th.account, NextAttemptNumber(w.db, th.req.slot), th.req.input))
  {
    hide InsertViolates, NextAttemptNumber, NewPayment;
    if !th.TxInsertPayment? && !th.OpenLocal? {
      hide Perform, Accepts;
      StepFollows(w, th, c);
    }
  }
}
