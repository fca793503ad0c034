/** What happens to one payment, one operation and one client key over a whole run. */
module Histories {
  import opened Basics
  import opened PaymentStates
  import opened ProviderClient
  import opened Tables
  import opened Protocol
  import opened Effects
  import opened Invariant
  import opened WorldSteps
  import opened Runs

  /** How a committed payment row may look later. */
  ghost predicate Later(a: Payment, b: Payment) {
    && SameIdentity(a, b)
    && (a.status.Terminal() || a.status == CreationUnknown ==> b == a)
    && (a.providerId.Some? ==> b.providerId == a.providerId && b.checkoutUrl == a.checkoutUrl)
    && (if b.status == a.status then b == a else CodeRank(b.status) < CodeRank(a.status))
  }

  /** One step changes the status of a row only along an edge of the transition table, and nothing without it. */
  lemma StepIsLegal(s: State, l: Label, p: Uuid)
    requires Inv(s) && Enabled(s, l) && p in s.world.db.payments
    ensures p in Apply(s, l).world.db.payments
    ensures var a, b := s.world.db.payments[p], Apply(s, l).world.db.payments[p];
            && (b == a || (CanTransition(a.status, b.status) && CodeEdge(a.status, b.status)))
            && Later(a, b)
  {
    hide Inv, Enabled, Apply, StepClaims, TouchesOperations, TouchesRest;
    assert RowOK(s.world.db.payments[p]) by { AtPaymentOf(s, p); }
    StepTouches(s, l);
  }

  lemma AtPaymentOf(s: State, p: Uuid)
    requires Inv(s) && p in s.world.db.payments
    ensures PaymentOK(s.world, p)
  {
    hide WorldOK;
    AtPayment(s.world, p);
  }

  lemma AtOperationOf(s: State, o: Uuid)
    requires Inv(s) && o in s.world.db.operations
    ensures OperationOK(s.world, o)
  {
    hide WorldOK;
    AtOperation(s.world, o);
  }

  /**
   * The row of a payment over any stretch of any run: it stays, keeps its identity, its provider id and its link;
   * terminal rows (with their completion time) and creation_unknown rows never change again.
   */
  lemma {:induction false} RowHistory(r: Execution, i: nat, j: nat, p: Uuid)
    requires ValidRun(r) && i <= j < |r.states| && p in r.states[i].world.db.payments
    ensures p in r.states[j].world.db.payments
    ensures Later(r.states[i].world.db.payments[p], r.states[j].world.db.payments[p])
    decreases j - i
  {
    hide Inv, Apply, Enabled;
    if i < j {
      RowHistory(r, i, j - 1, p);
      RunInv(r, j - 1);
      StepIsLegal(r.states[j - 1], r.labels[j - 1], p);
    }
  }

  /** How often the status of a payment changes in the first n steps of a run. */
  ghost function StatusChanges(r: Execution, p: Uuid, n: nat): nat
    requires |r.states| == |r.labels| + 1 && n <= |r.labels|
  {
    if n == 0 then 0
    else
      var a, b := r.states[n - 1].world.db.payments, r.states[n].world.db.payments;
      StatusChanges(r, p, n - 1) + if p in a && p in b && a[p].status != b[p].status then 1 else 0
  }

  /** No payment changes status more than three times, and each change uses up rank of the table. */
  lemma {:induction false} AtMostThreeChanges(r: Execution, p: Uuid, n: nat)
    requires ValidRun(r) && n <= |r.labels|
    ensures StatusChanges(r, p, n) <= 3
    ensures p in r.states[n].world.db.payments ==>
              StatusChanges(r, p, n) + CodeRank(r.states[n].world.db.payments[p].status) <= 3
    ensures p !in r.states[n].world.db.payments ==> StatusChanges(r, p, n) == 0
  {
    hide Inv, Apply, Enabled;
    if n > 0 {
      AtMostThreeChanges(r, p, n - 1);
      RunInv(r, n - 1);
      var s, l := r.states[n - 1], r.labels[n - 1];
      if p in s.world.db.payments {
        StepIsLegal(s, l, p);
      }
    }
  }

  // ---- the tables in every state of every run ----

  /** Each payment has exactly one operation row; the two statuses stay coupled, whatever died in between. */
  lemma OneOperationEach(r: Execution, i: nat, p: Uuid)
    requires ValidRun(r) && i < |r.states| && p in r.states[i].world.db.payments
    ensures var w := r.states[i].world;
            exists o :: o in w.db.operations && w.db.operations[o].payment == p
                     && (forall o' :: o' in w.db.operations && w.db.operations[o'].payment == p ==> o' == o)
                     && RowOK(w.db.payments[p]) && Coupled(w.db.payments[p], w.db.operations[o], |CallsOf(w, o)|)
  {
    hide Inv;
    RunInv(r, i);
    var s := r.states[i];
    AtPaymentOf(s, p);
    var o := s.world.opOf[p];
    forall o' | o' in s.world.db.operations && s.world.db.operations[o'].payment == p ensures o' == o {
      AtOperationOf(s, o');
    }
  }

  /** A succeeded row's provider id was read as succeeded, and no other payment carries that id. */
  lemma SucceededWasRead(r: Execution, i: nat, p: Uuid)
    requires ValidRun(r) && i < |r.states| && p in r.states[i].world.db.payments
    ensures var w := r.states[i].world;
            var row := w.db.payments[p];
            && (row.status == Succeeded ==> row.providerId.Some? && Reading(row.providerId.value, Succeeded) in w.readings)
            && (row.completedAt.Some? <==> row.status.Terminal())
            && forall q :: q in w.db.payments && q != p && row.providerId.Some? ==> w.db.payments[q].providerId != row.providerId
  {
    hide WorldOK;
    RunInv(r, i);
    AtPaymentOf(r.states[i], p);
    Domains(r.states[i].world);
  }

  /** What a status text of the provider says about its payment. */
  predicate StandsFor(text: string, status: Status) {
    if text == "succeeded" then status == Succeeded
    else if text == "canceled" then status == Canceled
    else (text == "pending" || text == "waiting_for_capture") && status == Pending
  }

  lemma ReadStatus(id: ProviderId, x: Exchange)
    ensures GetResult(id, x).Ok? <==> id != NO_ID && Carries(x)
    ensures GetResult(id, x).Ok? ==> StandsFor(x.payment.value.status, InternalStatus(GetResult(id, x).value.status))
  {
    PaymentOnlyFromAnswer(x);
    hide CreateResult;
  }

  /** A status is on record only because a get request received an answer about that id whose text stands for it. */
  lemma ReadingsComeFromAnswers(s: State, l: Label, x: Reading)
    requires Inv(s) && Enabled(s, l) && x !in s.world.readings && x in Apply(s, l).world.readings
    ensures l.Step? && l.t in s.threads && s.threads[l.t].GetRefresh? && l.choice.Reply?
    ensures s.threads[l.t].row.providerId == Some(x.id)
    ensures Carries(l.choice.exchange) && StandsFor(l.choice.exchange.payment.value.status, x.status)
  {
    hide Inv, GetResult, Carries, StandsFor, InternalStatus;
    if l.Step? {
      ReadingsOnlyInGet(s.world, s.threads[l.t], l.choice);
      if s.threads[l.t].GetRefresh? && l.choice.Reply? { ReadStatus(x.id, l.choice.exchange); }
    }
  }

  lemma ReadingsOnlyInGet(w: World, th: Thread, c: Choice)
    requires Accepts(th, c)
    ensures !th.GetRefresh? ==> Perform(w, th, c).world.readings == w.readings
  {
    hide Perform, RequestOf, InsertViolates, NextAttemptNumber, OrderHasSucceededPayment, ProviderIdTaken;
    StepWrites(w, th, c);
  }

  // ---- provider calls ----

  /** For every provider key: calls made <= attempt_count <= 1, and no two operations share a key. */
  lemma AtMostOneCall(r: Execution, i: nat, o: Uuid)
    requires ValidRun(r) && i < |r.states| && o in r.states[i].world.db.operations
    ensures var w := r.states[i].world;
            && |CallsOf(w, o)| <= w.db.operations[o].attemptCount <= 1
            && (forall o' :: o' in w.db.operations && o' != o ==>
                  w.db.operations[o'].providerKey != w.db.operations[o].providerKey)
            && w.db.operations[o].payment in w.db.payments
            && (forall k :: 0 <= k < |CallsOf(w, o)| ==>
                  CallsOf(w, o)[k] == Rebuilt(w.db.payments[w.db.operations[o].payment], w.db.operations[o]))
  {
    hide Inv, Rebuilt;
    RunInv(r, i);
    var s := r.states[i];
    AtOperationOf(s, o);
    AtPaymentOf(s, s.world.db.operations[o].payment);
    forall o' | o' in s.world.db.operations && o' != o
      ensures s.world.db.operations[o'].providerKey != s.world.db.operations[o].providerKey
    {
      AtOperationOf(s, o');
    }
  }

  lemma CallsOnlyWhenSending(w: World, th: Thread, c: Choice, o: Uuid)
    requires Accepts(th, c)
    requires !(th.CallProvider? && c.Go? && th.local.operation == o)
    ensures CallsOf(Perform(w, th, c).world, o) == CallsOf(w, o)
  {
    hide Perform, GetResult, RequestOf, InsertViolates, NextAttemptNumber, OrderHasSucceededPayment, ProviderIdTaken;
    StepWrites(w, th, c);
  }

  /**
   * Write-ahead: at the moment of a call its operation row, with the key, the body and attempt_count 1, is already
   * committed, nothing was sent for it before, and what is sent is what the committed rows rebuild.
   */
  lemma WriteAhead(s: State, l: Label, o: Uuid)
    requires Inv(s) && Enabled(s, l) && CallsOf(Apply(s, l).world, o) != CallsOf(s.world, o)
    ensures var w, w' := s.world, Apply(s, l).world;
            && o in w.db.operations && w.db.operations[o].status == OpInProgress && w.db.operations[o].attemptCount == 1
            && w.db.operations[o].payment in w.db.payments
            && w.db.payments[w.db.operations[o].payment].status == Creating
            && CallsOf(w, o) == []
            && CallsOf(w', o) == [Rebuilt(w.db.payments[w.db.operations[o].payment], w.db.operations[o])]
            && w'.db == w.db
  {
    hide Rebuilt, WorldOK;
    if l.Step? {
      var th := s.threads[l.t];
      if th.CallProvider? && l.choice.Go? && th.local.operation == o {
        SendingIsAhead(s.world, th, l.choice);
      } else {
        CallsOnlyWhenSending(s.world, th, l.choice, o);
      }
    }
  }

  lemma SendingIsAhead(w: World, th: Thread, c: Choice)
    requires WorldOK(w) && ThreadOK(w, th) && th.CallProvider? && c.Go?
    ensures var o := th.local.operation;
            && o in w.db.operations && w.db.operations[o].status == OpInProgress && w.db.operations[o].attemptCount == 1
            && w.db.operations[o].payment in w.db.payments
            && w.db.payments[w.db.operations[o].payment].status == Creating
            && CallsOf(w, o) == []
            && CallsOf(Perform(w, th, c).world, o) == [Rebuilt(w.db.payments[w.db.operations[o].payment], w.db.operations[o])]
            && Perform(w, th, c).world.db == w.db
  {
    hide WorldOK;
    AtPayment(w, th.local.payment);
    var request := RequestOf(th.req.input, th.local.row, th.local.payment, th.local.providerKey);
    assert request == Rebuilt(w.db.payments[th.local.payment], w.db.operations[th.local.operation]);
    assert CallsOf(Perform(w, th, c).world, th.local.operation) == CallsOf(w, th.local.operation) + [request];
  }

  /** request_body alone does not determine the request: the same body goes out with different metadata. */
  lemma BodyAloneIsNotEnough(row: Payment, op: Operation, other: Uuid)
    requires other != op.payment
    ensures Rebuilt(row, op.(payment := other)).metadata != Rebuilt(row, op).metadata
    ensures op.(payment := other).body == op.body
  {
    if Decimal(other) == Decimal(op.payment) { DecimalInjective(other, op.payment); }
    hide Decimal;
    assert Rebuilt(row, op).metadata["payment_id"] == Decimal(op.payment);
    assert Rebuilt(row, op.(payment := other)).metadata["payment_id"] == Decimal(other);
  }
}
