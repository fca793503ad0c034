/** Where stored provider ids and checkout URLs come from: always one answer to the call made for the payment's operation. */
module Answers {
  import opened Basics
  import opened ProviderClient
  import opened Tables
  import opened Protocol
  import opened Effects
  import opened Invariant
  import opened Runs
  import opened Histories
  import opened Atomicity
  import Isolation

  /** At step j the provider answered the call of operation o with this payment. */
  ghost predicate AnsweredAt(r: Execution, j: nat, o: Uuid, id: ProviderId, url: string)
    requires |r.states| == |r.labels| + 1
  {
    && j < |r.labels| && r.labels[j].Step? && r.labels[j].choice.Reply? && r.labels[j].t in r.states[j].threads
    && var th, x := r.states[j].threads[r.labels[j].t], r.labels[j].choice.exchange;
       th.AwaitAnswer? && th.local.operation == o && Answering(x, id, url)
  }

  ghost predicate Answering(x: Exchange, id: ProviderId, url: string) {
    CreateResult(x).Ok? && CreateResult(x).value.id == id && CreateResult(x).value.checkoutUrl == url
  }

  lemma AnswerTaken(w: World, th: Thread, c: Choice)
    requires Accepts(th, c) && Perform(w, th, c).thread.PersistCreated?
    ensures th.AwaitAnswer? && c.Reply?
    ensures var next := Perform(w, th, c).thread;
            next.local == th.local && Answering(c.exchange, next.id, next.url)
  {
    hide Perform, Accepts;
    StepFollows(w, th, c);
    BeforePersist(th, Perform(w, th, c).thread);
    hide Follows;
    AnswerRead(w, th, c);
    AnswerKept(th.req, th.local, c.exchange);
    hide AfterCall, Answering;
  }

  lemma BeforePersist(th: Thread, next: Thread)
    requires Follows(th, next) && next.PersistCreated?
    ensures th.AwaitAnswer?
  {
  }

  lemma AnswerKept(req: CreateRequest, l: Local, x: Exchange)
    ensures var next := AfterCall(req, l, x);
            next.PersistCreated? ==> next.local == l && Answering(x, next.id, next.url)
  {
    hide CreateResult;
  }

  lemma AnswerRead(w: World, th: Thread, c: Choice)
    requires th.AwaitAnswer? && Accepts(th, c)
    ensures c.Reply? && Perform(w, th, c).thread == AfterCall(th.req, th.local, c.exchange)
  {
    hide AfterCall;
  }

  lemma PersistStep(s: State, l: Label, t: nat)
    requires Enabled(s, l) && t in Apply(s, l).threads && Apply(s, l).threads[t].PersistCreated?
    ensures t in s.threads
    ensures var next := Apply(s, l).threads[t];
            || s.threads[t] == next
            || (l.Step? && l.t == t && l.choice.Reply? && s.threads[t].AwaitAnswer? && s.threads[t].local == next.local
                && Answering(l.choice.exchange, next.id, next.url))
  {
    hide Perform, Accepts, Fresh, Unblocked, Answering;
    if l.Step? && l.t == t { AnswerTaken(s.world, s.threads[t], l.choice); }
  }

  /** What a request is about to store was answered to its own call. */
  lemma {:induction false} AboutToStore(r: Execution, i: nat, t: nat)
    requires ValidRun(r) && i < |r.states| && t in r.states[i].threads && r.states[i].threads[t].PersistCreated?
    ensures var th := r.states[i].threads[t]; exists j: nat :: j < i && AnsweredAt(r, j, th.local.operation, th.id, th.url)
  {
    hide Enabled, Apply, Answering;
    if i > 0 {
      var th := r.states[i].threads[t];
      PersistStep(r.states[i - 1], r.labels[i - 1], t);
      if r.states[i - 1].threads[t] == th {
        AboutToStore(r, i - 1, t);
      } else {
        assert AnsweredAt(r, i - 1, th.local.operation, th.id, th.url);
      }
    }
  }

  lemma UrlWrite(w: World, th: Thread, c: Choice, p: Uuid)
    requires ThreadOK(w, th) && Accepts(th, c) && p in w.db.payments && w.db.payments[p].checkoutUrl.None?
    requires p in Perform(w, th, c).world.db.payments && Perform(w, th, c).world.db.payments[p].checkoutUrl.Some?
    ensures th.PersistCreated? && th.local.payment == p
    ensures var row := Perform(w, th, c).world.db.payments[p]; row.providerId == Some(th.id) && row.checkoutUrl == Some(th.url)
  {
    hide Perform;
    if th.TxCommit? || th.OpenLocal? {
      InsertsNoUrl(w, th, c, p);
    } else {
      hide ThreadOK, Accepts;
      StepWrites(w, th, c);
      if Resolved(th) || th.MarkCreating? || th.GetApply? {
        hide WorldAfter;
        UpdateUrl(w, th, c, p);
      } else {
        hide RequestOf, GetResult, CreateLocal, InsertLocal;
      }
    }
  }

  lemma UpdateUrl(w: World, th: Thread, c: Choice, p: Uuid)
    requires Accepts(th, c) && (Resolved(th) || th.MarkCreating? || th.GetApply?)
    requires p in w.db.payments && w.db.payments[p].checkoutUrl.None?
    requires p in WorldAfter(w, th, c).db.payments && WorldAfter(w, th, c).db.payments[p].checkoutUrl.Some?
    ensures th.PersistCreated? && th.local.payment == p
    ensures var row := WorldAfter(w, th, c).db.payments[p]; row.providerId == Some(th.id) && row.checkoutUrl == Some(th.url)
  {
    hide ProviderIdTaken;
  }

  lemma InsertsNoUrl(w: World, th: Thread, c: Choice, p: Uuid)
    requires ThreadOK(w, th) && Accepts(th, c) && (th.TxCommit? || th.OpenLocal?)
    requires p in w.db.payments && w.db.payments[p].checkoutUrl.None? && p in Perform(w, th, c).world.db.payments
    ensures Perform(w, th, c).world.db.payments[p].checkoutUrl.None?
  {
    hide Perform, NextAttemptNumber, InsertViolates, Settled, OrderHasSucceededPayment;
    StepWrites(w, th, c);
  }

  lemma NewRowHasNoUrl(s: State, l: Label, p: Uuid)
    requires Inv(s) && Enabled(s, l) && p !in s.world.db.payments && p in Apply(s, l).world.db.payments
    ensures Apply(s, l).world.db.payments[p].checkoutUrl.None?
  {
    hide Inv, Perform, Accepts, Unblocked;
    InvStep(s, l);
    assert RowOK(Apply(s, l).world.db.payments[p]) by { AtPaymentOf(Apply(s, l), p); }
    if l.Step? {
      assert WorldOK(s.world) && ThreadOK(s.world, s.threads[l.t]) by { InvParts(s, l.t); }
      hide WorldOK, ThreadOK;
      NewRow(s.world, s.threads[l.t], l.choice, p);
    }
  }

  lemma InvParts(s: State, t: nat)
    requires Inv(s) && t in s.threads
    ensures WorldOK(s.world) && ThreadOK(s.world, s.threads[t])
  {
    hide WorldOK, ThreadOK;
  }

  /** The step that stores a payment's URL is its owner's. */
  lemma UrlStep(s: State, l: Label, p: Uuid)
    requires Inv(s) && Enabled(s, l) && p in Apply(s, l).world.db.payments && Apply(s, l).world.db.payments[p].checkoutUrl.Some?
    requires p in s.world.db.payments ==> s.world.db.payments[p].checkoutUrl.None?
    ensures l.Step? && l.t in s.threads && s.threads[l.t].PersistCreated?
    ensures var th, row := s.threads[l.t], Apply(s, l).world.db.payments[p];
            && row.providerId == Some(th.id) && row.checkoutUrl == Some(th.url)
            && p in s.world.opOf && s.world.opOf[p] == th.local.operation
  {
    hide Inv, Perform, Accepts, Fresh, Unblocked;
    if p !in s.world.db.payments {
      NewRowHasNoUrl(s, l, p);
    } else if l.Step? {
      InvParts(s, l.t);
      hide ThreadOK, WorldOK;
      UrlWrite(s.world, s.threads[l.t], l.choice, p);
      Isolation.OwnerOwns(s.world, s.threads[l.t]);
    }
  }

  lemma UrlStays(s: State, l: Label, p: Uuid)
    requires Inv(s) && Enabled(s, l) && p in s.world.db.payments && s.world.db.payments[p].checkoutUrl.Some?
    ensures p in Apply(s, l).world.db.payments
    ensures var a, b := s.world.db.payments[p], Apply(s, l).world.db.payments[p];
            b.checkoutUrl == a.checkoutUrl && b.providerId == a.providerId
    ensures p in s.world.opOf && p in Apply(s, l).world.opOf && Apply(s, l).world.opOf[p] == s.world.opOf[p]
  {
    hide Inv, Enabled, Apply, TouchesPayments, TouchesOperations, StepClaims;
    AtPaymentOf(s, p);
    StepIsLegal(s, l, p);
    StepTouches(s, l);
  }

  /** In every run a payment's provider id and URL are those of an answer given to the call of its operation. */
  lemma {:induction false} StoredFromAnswer(r: Execution, i: nat, p: Uuid)
    requires ValidRun(r) && i < |r.states| && p in r.states[i].world.db.payments
    requires r.states[i].world.db.payments[p].checkoutUrl.Some?
    ensures var w := r.states[i].world;
            var row := w.db.payments[p];
            && p in w.opOf && row.providerId.Some?
            && exists j: nat :: j < i && AnsweredAt(r, j, w.opOf[p], row.providerId.value, row.checkoutUrl.value)
  {
    hide Inv, Enabled, Apply, AnsweredAt;
    if i > 0 {
      var s, l := r.states[i - 1], r.labels[i - 1];
      RunInv(r, i - 1);
      RunInv(r, i);
      AtPaymentOf(r.states[i], p);
      if p in s.world.db.payments && s.world.db.payments[p].checkoutUrl.Some? {
        StoredFromAnswer(r, i - 1, p);
        UrlStays(s, l, p);
      } else {
        UrlStep(s, l, p);
        AboutToStore(r, i - 1, l.t);
        OperationStays(s, l, p);
      }
    }
  }

  lemma OperationStays(s: State, l: Label, p: Uuid)
    requires Inv(s) && Enabled(s, l) && p in s.world.opOf
    ensures p in Apply(s, l).world.opOf && Apply(s, l).world.opOf[p] == s.world.opOf[p]
  {
    hide Inv, Enabled, Apply, TouchesPayments, TouchesOperations, StepClaims;
    StepTouches(s, l);
  }

  /** A payment counts as having a URL while the text is empty exactly when that answer carried no confirmation URL. */
  lemma EmptyUrlExactly(r: Execution, i: nat, p: Uuid)
    requires ValidRun(r) && i < |r.states| && p in r.states[i].world.db.payments
    requires r.states[i].world.db.payments[p].checkoutUrl.Some?
    ensures var w := r.states[i].world;
            p in w.opOf && exists j: nat :: j < i && AnsweredWith(r, j, w.opOf[p], w.db.payments[p].checkoutUrl.value)
  {
    hide AnsweredAt, Enabled, Apply;
    StoredFromAnswer(r, i, p);
    var w := r.states[i].world;
    var row := w.db.payments[p];
    var j: nat :| j < i && AnsweredAt(r, j, w.opOf[p], row.providerId.value, row.checkoutUrl.value);
    WithConfirmation(r, j, w.opOf[p], row.providerId.value, row.checkoutUrl.value);
  }

  /** The call of operation o was answered at step j, without a confirmation URL exactly if this text is empty. */
  ghost predicate AnsweredWith(r: Execution, j: nat, o: Uuid, url: string)
    requires |r.states| == |r.labels| + 1
  {
    && j < |r.labels| && r.labels[j].Step? && r.labels[j].choice.Reply? && r.labels[j].t in r.states[j].threads
    && var th, x := r.states[j].threads[r.labels[j].t], r.labels[j].choice.exchange;
       && th.AwaitAnswer? && th.local.operation == o && x.Answer? && x.payment.Some?
       && (url == "" <==> x.payment.value.confirmation.None? || x.payment.value.confirmation.value == "")
  }

  lemma WithConfirmation(r: Execution, j: nat, o: Uuid, id: ProviderId, url: string)
    requires |r.states| == |r.labels| + 1 && AnsweredAt(r, j, o, id, url)
    ensures AnsweredWith(r, j, o, url)
  {
    var x := r.labels[j].choice.exchange;
    PaymentOnlyFromAnswer(x);
  }
}
