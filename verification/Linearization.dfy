/**
 * The statement-level createLocal against the atomic one: every way the transaction can end is what the atomic step
 * would answer at some moment inside the transaction, except when a lockless refresh makes the order paid in between.
 */
module Linearization {
  import opened Basics
  import opened PaymentStates
  import opened ProviderClient
  import opened Tables
  import opened Protocol
  import opened Effects
  import opened Invariant
  import opened WorldSteps
  import opened Runs
  import opened Histories
  import opened Atomicity

  datatype Decision = OrderPaid | KeyTaken | AttemptActive | Insert(attempt: int)

  /** What the atomic createLocal does on given tables. */
  ghost function Decide(db: Store, req: CreateRequest): Decision {
    if OrderHasSucceededPayment(db, req.slot) then OrderPaid
    else if req.Key() in db.requests then KeyTaken
    else if ActiveAttempt(db, req.slot) then AttemptActive
    else Insert(NextAttemptNumber(db, req.slot))
  }

  /** How a transaction step that ends the transaction answered. */
  ghost function Answered(th: Thread, row: Payment): Decision
    requires th.RaceReread? || th.Credentials? || (th.CreateDone? && th.response.Failed?)
  {
    if th.RaceReread? then KeyTaken
    else if th.Credentials? then Insert(row.attempt)
    else if th.response.failure.OrderAlreadySucceeded? then OrderPaid
    else AttemptActive
  }

  /** The atomic step decides like Decide, and inserts the row with that number. */
  lemma CreateLocalDecides(w: World, req: CreateRequest, account: AccountId, p: Uuid, o: Uuid, key: Uuid)
    requires WorldOK(w)
    ensures var out := CreateLocal(w, req, account, p, o, key);
            && (Decide(w.db, req) == OrderPaid <==> out.thread == Fail(req, OrderAlreadySucceeded))
            && (Decide(w.db, req) == KeyTaken <==> out.thread == RaceReread(req))
            && (Decide(w.db, req) == AttemptActive <==> out.thread == Fail(req, ActiveAttemptExists))
            && (Decide(w.db, req).Insert? <==> out.thread.Credentials?)
            && (out.thread.Credentials? ==> Decide(w.db, req) == Insert(out.thread.local.row.attempt))
  {
    hide WorldOK, InsertViolates, NextAttemptNumber;
    NextIsLength(w, req.slot);
    ViolationIsActive(w, NewPayment(req.slot, account, NextAttemptNumber(w.db, req.slot), req.input));
  }

  /**
   * Refusals for an open attempt are the atomic answer at the transaction's key check; every other ending is the
   * atomic answer at the ending itself if and only if the order is unpaid there or the answer is "paid".
   */
  lemma EndingIsAtomic(w: World, th: Thread, c: Choice)
    requires WorldOK(w) && ThreadOK(w, th) && InTx(th) && Accepts(th, c) && !InTx(Perform(w, th, c).thread)
    ensures var after := Perform(w, th, c).thread;
            after.RaceReread? || after.Credentials? || (after.CreateDone? && after.response.Failed?)
    ensures var after := Perform(w, th, c).thread;
            if th.TxInsertPayment? then Decide(th.seen, th.req) == AttemptActive == Answered(after, NoRow())
            else if th.TxCheckPaid? then Decide(w.db, th.req) == OrderPaid == Answered(after, NoRow())
            else if th.TxCommit? then
              Decide(w.db, th.req) == Answered(after, th.local.row) <==> !OrderHasSucceededPayment(w.db, th.req.slot)
            else Decide(w.db, th.req) == Answered(after, NoRow()) <==> !OrderHasSucceededPayment(w.db, th.req.slot)
  {
    hide WorldOK, NextAttemptNumber, PerformBegin, PerformCall, PerformSettle, PerformGet;
    if th.TxInsertPayment? {
      ActiveEnding(w, th, c);
    } else if th.TxCommit? {
      hide Perform, ThreadOK;
      CommitEnds(w, th);
    }
  }

  lemma CommitEnds(w: World, th: Thread)
    requires WorldOK(w) && ThreadOK(w, th) && th.TxCommit?
    ensures Perform(w, th, Go).thread == Credentials(th.req, th.local)
    ensures Decide(w.db, th.req) == Insert(th.local.row.attempt) <==> !OrderHasSucceededPayment(w.db, th.req.slot)
  {
    CommitEnding(w, th);
    hide WorldOK, ThreadOK, Decide, OrderHasSucceededPayment, InsertLocal;
  }

  lemma ActiveEnding(w: World, th: Thread, c: Choice)
    requires WorldOK(w) && ThreadOK(w, th) && th.TxInsertPayment? && Accepts(th, c) && !InTx(Perform(w, th, c).thread)
    ensures Perform(w, th, c).thread == Fail(th.req, ActiveAttemptExists) && Decide(th.seen, th.req) == AttemptActive
  {
    hide WorldOK, NextAttemptNumber, PerformBegin, PerformCall, PerformSettle, PerformGet;
    ViolationIsActive(w, NewPayment(th.req.slot, th.account, th.attempt, th.req.input));
  }

  ghost function NoRow(): Payment {
    Payment(Slot(0, 0), 0, 0, Details(0, "", "", None, map[]), Created, None, None, None, None)
  }

  /** The commit writes exactly the rows the atomic step with the same ids would write. */
  lemma CommitIsAtomicInsert(w: World, th: Thread)
    requires WorldOK(w) && ThreadOK(w, th) && th.TxCommit?
    requires !OrderHasSucceededPayment(w.db, th.req.slot)
    ensures var l, out := th.local, Perform(w, th, Go);
            var atomic := CreateLocal(w, th.req, l.row.account, l.payment, l.operation, l.providerKey);
            out.world.db == atomic.world.db && out.thread == atomic.thread
            && out.world.attempts == atomic.world.attempts && out.world.opOf == atomic.world.opOf
  {
    hide WorldOK, InsertViolates, NextAttemptNumber;
    NextIsLength(w, th.req.slot);
    ViolationIsActive(w, th.local.row);
  }

  // ---- who can make an order paid ----

  lemma SucceedsOnlyInApply(w: World, th: Thread, c: Choice, p: Uuid)
    requires ThreadOK(w, th) && Accepts(th, c)
    requires p in w.db.payments && w.db.payments[p].status != Succeeded
    requires p in Perform(w, th, c).world.db.payments && Perform(w, th, c).world.db.payments[p].status == Succeeded
    ensures th.GetApply? && c.At? && th.p == p && th.next == Succeeded
  {
    hide Perform;
    if th.TxCommit? || th.OpenLocal? {
      hide ThreadOK;
      InsertsAreCreated(w, th, c, p);
    } else {
      hide ThreadOK, CreateLocal, InsertLocal, RequestOf, GetResult;
      StepWrites(w, th, c);
    }
  }

  lemma InsertsAreCreated(w: World, th: Thread, c: Choice, p: Uuid)
    requires ThreadOK(w, th) && Accepts(th, c) && (th.TxCommit? || th.OpenLocal?)
    requires p in w.db.payments && p in Perform(w, th, c).world.db.payments
    ensures Perform(w, th, c).world.db.payments[p] == w.db.payments[p] || Perform(w, th, c).world.db.payments[p].status == Created
  {
    hide Perform, NextAttemptNumber, InsertViolates, Settled, OrderHasSucceededPayment;
    StepWrites(w, th, c);
  }

  /** An order becomes paid only by the status write of a refresh, which holds no lock. */
  lemma PaidOnlyByRefresh(s: State, l: Label, slot: Slot)
    requires Inv(s) && Enabled(s, l)
    requires !OrderHasSucceededPayment(s.world.db, slot) && OrderHasSucceededPayment(Apply(s, l).world.db, slot)
    ensures l.Step? && l.t in s.threads && s.threads[l.t].GetApply? && s.threads[l.t].next == Succeeded && l.choice.At?
    ensures s.threads[l.t].p in s.world.db.payments && s.world.db.payments[s.threads[l.t].p].slot == slot
  {
    hide WorldOK, ThreadOK, Perform, Accepts, Unblocked, Fresh, Later;
    var s' := Apply(s, l);
    var p := PaidRow(s'.world.db, slot);
    if l.Step? {
      var th := s.threads[l.t];
      if p in s.world.db.payments {
        CanceledStays(s, l, p);
        SucceedsOnlyInApply(s.world, th, l.choice, p);
      } else {
        NewRow(s.world, th, l.choice, p);
      }
    }
  }

  ghost predicate PastPaidCheck(th: Thread) {
    InTx(th) && !th.TxCheckPaid?
  }

  /** A thread is past its paid check only by having found the order unpaid, or having been past it before. */
  lemma PastPaidCheckFrom(s: State, l: Label, t: nat)
    requires Enabled(s, l) && t in Apply(s, l).threads && PastPaidCheck(Apply(s, l).threads[t])
    ensures t in s.threads && s.threads[t].CreateDone? == false
    ensures PastPaidCheck(s.threads[t]) ==> Apply(s, l).threads[t].req == s.threads[t].req
    ensures !PastPaidCheck(s.threads[t]) ==>
              && s.threads[t].TxCheckPaid? && s.threads[t].req == Apply(s, l).threads[t].req
              && !OrderHasSucceededPayment(s.world.db, s.threads[t].req.slot)
              && Apply(s, l).world.db == s.world.db
  {
    hide Perform, Accepts, Fresh, Unblocked;
    if l.Step? && l.t == t {
      var th := s.threads[t];
      StepKeepsRequest(s.world, th, l.choice);
      StepFollows(s.world, th, l.choice);
      if th.TxCheckPaid? { PassesPaidCheck(s.world, th, l.choice); }
    }
  }

  lemma PassesPaidCheck(w: World, th: Thread, c: Choice)
    requires th.TxCheckPaid? && Accepts(th, c) && Perform(w, th, c).thread.TxCheckKey?
    ensures !OrderHasSucceededPayment(w.db, th.req.slot) && Perform(w, th, c).world.db == w.db
  {
    hide OrderHasSucceededPayment;
  }

  /** A step at which a refresh makes an order paid while a creation on that order is between its paid check and its insert. */
  ghost predicate SuccessLands(r: Execution, k: nat, t: nat, slot: Slot)
    requires |r.states| == |r.labels| + 1
  {
    && k < |r.labels| && OrderHasSucceededPayment(r.states[k + 1].world.db, slot) && r.labels[k].Step? && r.labels[k].t != t
    && r.labels[k].t in r.states[k].threads && r.states[k].threads[r.labels[k].t].GetApply?
    && r.states[k].threads[r.labels[k].t].next == Succeeded
    && t in r.states[k].threads && PastPaidCheck(r.states[k].threads[t]) && r.states[k].threads[t].req.slot == slot
    && !OrderHasSucceededPayment(r.states[k].world.db, slot)
  }

  lemma LandsNow(s: State, l: Label, t: nat, slot: Slot)
    requires Inv(s) && Enabled(s, l)
    requires t in Apply(s, l).threads && PastPaidCheck(Apply(s, l).threads[t]) && Apply(s, l).threads[t].req.slot == slot
    requires !OrderHasSucceededPayment(s.world.db, slot) && OrderHasSucceededPayment(Apply(s, l).world.db, slot)
    ensures l.Step? && l.t != t && l.t in s.threads && s.threads[l.t].GetApply? && s.threads[l.t].next == Succeeded
    ensures t in s.threads && PastPaidCheck(s.threads[t]) && s.threads[t].req.slot == slot
  {
    hide Inv, Enabled, Apply, OrderHasSucceededPayment;
    PaidOnlyByRefresh(s, l, slot);
    PastPaidCheckFrom(s, l, t);
  }

  /** A success that landed stays: from then on the creation that is still open is on a paid order. */
  lemma {:induction false} LandedStays(r: Execution, k: nat, j: nat, slot: Slot)
    requires ValidRun(r) && k <= j < |r.states| && OrderHasSucceededPayment(r.states[k].world.db, slot)
    ensures OrderHasSucceededPayment(r.states[j].world.db, slot)
  {
    hide Inv, Apply, Enabled;
    var p := PaidRow(r.states[k].world.db, slot);
    RowHistory(r, k, j, p);
  }

  /**
   * The commit of a statement-level creation differs from the atomic step exactly when, after its paid check, a
   * refresh of another request made the order paid.
   */
  lemma CommitRefinesExactly(r: Execution, j: nat, t: nat)
    requires ValidRun(r) && j < |r.states| && t in r.states[j].threads && r.states[j].threads[t].TxCommit?
    ensures var s, th := r.states[j], r.states[j].threads[t];
            Decide(s.world.db, th.req) == Insert(th.local.row.attempt)
            <==> !exists k :: 0 <= k < j && SuccessLands(r, k, t, th.req.slot)
  {
    hide Inv, Apply, Enabled, WorldOK, OrderHasSucceededPayment, Decide;
    RunInv(r, j);
    var s, th := r.states[j], r.states[j].threads[t];
    CommitDecision(s, t);
    var slot := th.req.slot;
    if OrderHasSucceededPayment(s.world.db, slot) {
      LandingStep(r, j, t);
    }
    forall k | 0 <= k < j && SuccessLands(r, k, t, slot)
      ensures OrderHasSucceededPayment(s.world.db, slot)
    {
      LandedStays(r, k + 1, j, slot);
    }
  }

  lemma CommitDecision(s: State, t: nat)
    requires Inv(s) && t in s.threads && s.threads[t].TxCommit?
    ensures Decide(s.world.db, s.threads[t].req) == Insert(s.threads[t].local.row.attempt)
            <==> !OrderHasSucceededPayment(s.world.db, s.threads[t].req.slot)
  {
    hide WorldOK, Decide, NextAttemptNumber;
    assert ThreadOK(s.world, s.threads[t]);
    var w, th := s.world, s.threads[t];
    hide ThreadOK, InTx, Perform;
    CommitEnding(w, th);
  }

  lemma CommitEnding(w: World, th: Thread)
    requires WorldOK(w) && ThreadOK(w, th) && th.TxCommit?
    ensures Decide(w.db, th.req) == Insert(th.local.row.attempt) <==> !OrderHasSucceededPayment(w.db, th.req.slot)
  {
    hide WorldOK, NextAttemptNumber;
    NextIsLength(w, th.req.slot);
  }

  /**
   * If a creation past its paid check sees its order paid, then after that check a lockless refresh landed a success:
   * the lock alone does not exclude it.
   */
  lemma {:induction false} LandingStep(r: Execution, j: nat, t: nat)
    requires ValidRun(r) && j < |r.states| && t in r.states[j].threads && PastPaidCheck(r.states[j].threads[t])
    requires OrderHasSucceededPayment(r.states[j].world.db, r.states[j].threads[t].req.slot)
    ensures exists k :: 0 <= k < j && SuccessLands(r, k, t, r.states[j].threads[t].req.slot)
  {
    hide Inv, Apply, Enabled, OrderHasSucceededPayment;
    if j > 0 {
      var s, l, slot := r.states[j - 1], r.labels[j - 1], r.states[j].threads[t].req.slot;
      RunInv(r, j - 1);
      PastPaidCheckFrom(s, l, t);
      if OrderHasSucceededPayment(s.world.db, slot) {
        LandingStep(r, j - 1, t);
      } else {
        LandsNow(s, l, t, slot);
        assert SuccessLands(r, j - 1, t, slot);
      }
    }
  }
}
