/** The client's idempotency key over all races (docs/PAYMENT_LIFECYCLE.md section 4). */
module Idempotency {
  import opened ProviderClient
  import opened Tables
  import opened Protocol
  import opened Effects
  import opened Invariant
  import opened WorldSteps
  import opened Runs

  lemma KeyStep(s: State, l: Label, k: ClientKey)
    requires Inv(s) && Enabled(s, l) && k in s.world.db.requests
    ensures k in Apply(s, l).world.db.requests
    ensures Apply(s, l).world.db.requests[k] == s.world.db.requests[k]
  {
    hide Inv, Enabled, Apply, StepClaims, TouchesPayments, TouchesOperations;
    StepTouches(s, l);
  }

  /** An (application, key) pair is bound at most once and for ever, to one payment of that application. */
  lemma {:induction false} KeyBoundForEver(r: Execution, i: nat, j: nat, k: ClientKey)
    requires ValidRun(r) && i <= j < |r.states| && k in r.states[i].world.db.requests
    ensures k in r.states[j].world.db.requests
    ensures r.states[j].world.db.requests[k] == r.states[i].world.db.requests[k]
    ensures var w := r.states[j].world;
            var p := w.db.requests[k].payment;
            p.Some? && p.value in w.db.payments && w.db.payments[p.value].slot.app == k.app
    decreases j - i
  {
    hide Inv, Apply, Enabled;
    RunInv(r, j);
    BoundPayment(r.states[j], k) by {
      if i < j {
        KeyBoundForEver(r, i, j - 1, k);
        RunInv(r, j - 1);
        KeyStep(r.states[j - 1], r.labels[j - 1], k);
      }
    }
    if i < j {
      KeyBoundForEver(r, i, j - 1, k);
      RunInv(r, j - 1);
      KeyStep(r.states[j - 1], r.labels[j - 1], k);
    }
  }

  lemma BoundPayment(s: State, k: ClientKey)
    requires Inv(s) && k in s.world.db.requests
    ensures RequestOK(s.world, k)
  {
    hide WorldOK;
    AtRequest(s.world, k);
  }

  lemma ResponseBound(s: State, t: nat)
    requires Inv(s) && t in s.threads && s.threads[t].CreateDone?
    ensures ResponseOK(s.world, s.threads[t].req, s.threads[t].response)
  {
    hide WorldOK;
    assert ThreadOK(s.world, s.threads[t]);
  }

  /** All responses under one key that carry a payment, at whatever time, carry the same one, and to the same body. */
  lemma OnePaymentPerKey(r: Execution, i: nat, t: nat, j: nat, u: nat)
    requires ValidRun(r) && i <= j < |r.states|
    requires t in r.states[i].threads && r.states[i].threads[t].CreateDone? && r.states[i].threads[t].response.Accepted?
    requires u in r.states[j].threads && r.states[j].threads[u].CreateDone? && r.states[j].threads[u].response.Accepted?
    requires r.states[i].threads[t].req.Key() == r.states[j].threads[u].req.Key()
    ensures r.states[i].threads[t].response.payment == r.states[j].threads[u].response.payment
    ensures r.states[i].threads[t].req.hash == r.states[j].threads[u].req.hash
  {
    hide Inv, Apply, Enabled;
    RunInv(r, i);
    RunInv(r, j);
    ResponseBound(r.states[i], t);
    ResponseBound(r.states[j], u);
    KeyBoundForEver(r, i, j, r.states[i].threads[t].req.Key());
  }

  /** A create response never carries another application's payment. */
  lemma ResponseIsOwn(r: Execution, i: nat, t: nat)
    requires ValidRun(r) && i < |r.states| && t in r.states[i].threads && r.states[i].threads[t].CreateDone?
    requires r.states[i].threads[t].response.Accepted?
    ensures r.states[i].threads[t].response.row.slot.app == r.states[i].threads[t].req.slot.app
  {
    hide Inv, Apply, Enabled;
    RunInv(r, i);
    ResponseBound(r.states[i], t);
    BoundPayment(r.states[i], r.states[i].threads[t].req.Key());
  }

  /** The key of a request is bound to a different fingerprint. */
  ghost predicate Mismatch(w: World, req: CreateRequest) {
    req.Key() in w.db.requests && w.db.requests[req.Key()].hash != req.hash
  }

  lemma MismatchOwnsNothing(w: World, th: Thread)
    requires CreateThread(th) && ThreadOK(w, th) && Mismatch(w, th.req)
    ensures !Calling(th) && !Settling(th) && !th.TxCommit? && !th.ReplayRead?
    ensures th.CreateDone? ==> th.response.Failed?
  {
    hide Settled, PaidOnlyIfSettled;
  }

  lemma MismatchStep(w: World, th: Thread, c: Choice)
    requires CreateThread(th) && ThreadOK(w, th) && Accepts(th, c) && Mismatch(w, th.req)
    ensures Perform(w, th, c).world.db == w.db
    ensures th.ReadKey? || th.RaceReread? ==> Perform(w, th, c).thread == CreateDone(th.req, Failed(IdempotencyConflict))
  {
    MismatchOwnsNothing(w, th);
    hide ThreadOK, NextAttemptNumber, InsertViolates, CreateResult;
  }

  /** The request changes no row whatever it does next, has got no payment, and its key read answers with a conflict. */
  ghost predicate ShutOut(s: State, t: nat)
    requires t in s.threads && CreateThread(s.threads[t])
  {
    var th := s.threads[t];
    && (th.CreateDone? ==> th.response.Failed?)
    && (forall c :: Enabled(s, Step(t, c)) ==> Apply(s, Step(t, c)).world.db == s.world.db)
    && (forall c :: Enabled(s, Step(t, c)) && (th.ReadKey? || th.RaceReread?) ==>
          Apply(s, Step(t, c)).threads[t] == CreateDone(th.req, Failed(IdempotencyConflict)))
  }

  /**
   * A request whose key is bound to a different fingerprint changes no row from then on and never gets a payment back;
   * a request arriving under such a key is told IDEMPOTENCY_CONFLICT by its first statement.
   */
  lemma ReusedKeyConflicts(r: Execution, i: nat, j: nat, t: nat)
    requires ValidRun(r) && i <= j < |r.states| && t in r.states[j].threads && CreateThread(r.states[j].threads[t])
    requires Mismatch(r.states[i].world, r.states[j].threads[t].req)
    ensures ShutOut(r.states[j], t)
  {
    hide WorldOK, ThreadOK, Perform, Accepts, Unblocked, Fresh;
    var s, th := r.states[j], r.states[j].threads[t];
    KeyBoundForEver(r, i, j, th.req.Key());
    RunInv(r, j);
    MismatchOwnsNothing(s.world, th);
    forall c | Enabled(s, Step(t, c))
      ensures Apply(s, Step(t, c)).world.db == s.world.db
      ensures th.ReadKey? || th.RaceReread? ==>
                Apply(s, Step(t, c)).threads[t] == CreateDone(th.req, Failed(IdempotencyConflict))
    {
      MismatchStep(s.world, th, c);
    }
  }

  /** The answer of a request whose race was never resolved. */
  predicate Unresolved(th: Thread) {
    th.CreateDone? && th.response == Failed(KeyRace)
  }

  /** No statement that runs leaves a race unresolved. */
  lemma StepResolves(w: World, th: Thread, c: Choice)
    requires Accepts(th, c) && (th.RaceReread? ==> th.req.Key() in w.db.requests)
    ensures !Unresolved(Perform(w, th, c).thread)
  {
    hide Perform, Accepts;
    StepFollows(w, th, c);
    if th.RaceReread? { RereadResolves(w, th, c); }
  }

  lemma RereadResolves(w: World, th: Thread, c: Choice)
    requires th.RaceReread? && Accepts(th, c) && th.req.Key() in w.db.requests
    ensures Perform(w, th, c).thread == StartReplay(th.req, w.db.requests[th.req.Key()])
  {
    hide StartReplay, PerformTx, PerformCall, PerformSettle, PerformGet;
  }

  lemma RereadFinds(s: State, t: nat)
    requires Inv(s) && t in s.threads && s.threads[t].RaceReread?
    ensures s.threads[t].req.Key() in s.world.db.requests
  {
    hide WorldOK;
    assert ThreadOK(s.world, s.threads[t]);
  }

  /** Request t died at its re-read. */
  predicate DiedRereading(r: Execution, t: nat, j: nat)
    requires |r.states| == |r.labels| + 1
  {
    j < |r.labels| && r.labels[j] == Die(t) && t in r.states[j].threads && r.states[j].threads[t].RaceReread?
  }

  /**
   * The re-read after a lost race always finds the record, also for one key used on two orders; a response reports the
   * race only when the re-read itself failed.
   */
  lemma {:induction false} RaceAlwaysResolves(r: Execution, i: nat, t: nat)
    requires ValidRun(r) && i < |r.states| && t in r.states[i].threads
    ensures var s, th := r.states[i], r.states[i].threads[t];
            && (th.RaceReread? ==> th.req.Key() in s.world.db.requests)
            && (Unresolved(th) ==> exists j: nat :: j < i && DiedRereading(r, t, j))
  {
    hide Inv, Enabled, Apply, Unresolved;
    RunInv(r, i);
    if r.states[i].threads[t].RaceReread? { RereadFinds(r.states[i], t); }
    if i > 0 && Unresolved(r.states[i].threads[t]) {
      var s, l := r.states[i - 1], r.labels[i - 1];
      RunInv(r, i - 1);
      if t in s.threads { RaceAlwaysResolves(r, i - 1, t); }
      UnresolvedFrom(s, l, t);
      if l == Die(t) && t in s.threads && s.threads[t].RaceReread? { assert DiedRereading(r, t, i - 1); }
    }
  }

  lemma UnresolvedFrom(s: State, l: Label, t: nat)
    requires Inv(s) && Enabled(s, l) && t in Apply(s, l).threads && Unresolved(Apply(s, l).threads[t])
    ensures t in s.threads
    ensures Unresolved(s.threads[t]) || (l == Die(t) && s.threads[t].RaceReread?)
  {
    hide Inv, Perform, Accepts, Fresh, Unblocked;
    if l.Step? && l.t == t {
      if s.threads[t].RaceReread? { RereadFinds(s, t); }
      StepResolves(s.world, s.threads[t], l.choice);
    }
  }

  /** No response of any run reports a missing row or an illegal transition. */
  lemma NeverImpossible(r: Execution, i: nat, t: nat)
    requires ValidRun(r) && i < |r.states| && t in r.states[i].threads && r.states[i].threads[t].CreateDone?
    requires r.states[i].threads[t].response.Failed?
    ensures !Impossible(r.states[i].threads[t].response.failure)
  {
    hide Inv;
    RunInv(r, i);
    ResponseBound(r.states[i], t);
  }

  /**
   * No hollow success: a response with Pending=false holds a terminal payment or one with a checkout URL,
   * and Pending=true is said only of an open payment without one.
   */
  lemma NoHollowSuccess(r: Execution, i: nat, t: nat)
    requires ValidRun(r) && i < |r.states| && t in r.states[i].threads && r.states[i].threads[t].CreateDone?
    requires r.states[i].threads[t].response.Accepted?
    ensures var a := r.states[i].threads[t].response;
            a.pending <==> !a.row.status.Terminal() && a.row.checkoutUrl.None?
  {
    hide Inv, Apply, Enabled;
    RunInv(r, i);
    ResponseBound(r.states[i], t);
  }
}
