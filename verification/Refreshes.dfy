/**
 * The get request and its refresh (internal/payments/service.go:421-487): what a provider answer does to a payment,
 * and how current the row is that the client sees.
 */
module Refreshes {
  import opened Basics
  import opened PaymentStates
  import opened ProviderClient
  import opened Tables
  import opened Protocol
  import opened Effects
  import opened Invariant
  import opened Runs
  import opened Histories
  import opened Columns
  import WorldSteps

  /** A refresh is due: the row is open, the provider knows it, and its next check is not in the future. */
  predicate RefreshDue(row: Payment, now: Time) {
    && row.status != Succeeded && row.status != Canceled && row.providerId.Some?
    && (row.nextCheckAt.Some? ==> row.nextCheckAt.value <= now)
  }

  predicate Visible(db: Store, p: Uuid, app: AppId) {
    p in db.payments && db.payments[p].slot.app == app
  }

  /** A read of this row was answered, readably. */
  predicate Hears(row: Payment, c: Choice) {
    c.Reply? && row.providerId.Some? && row.providerId.value != NO_ID && Carries(c.exchange)
  }

  /** ... with this text. */
  predicate Heard(row: Payment, c: Choice, text: string) {
    Hears(row, c) && c.exchange.payment.value.status == text
  }

  /** Where a get request goes, from the rows and from the words of the answer. */
  ghost predicate GetGoes(w: World, th: Thread, c: Choice, next: Thread)
    requires Getting(th)
  {
    match th
    case GetRead(app, p) =>
      && c.At?
      && next == if !Visible(w.db, p, app) then GetDone(app, p, None)
                 else if RefreshDue(w.db.payments[p], c.now) then GetRefresh(app, p, w.db.payments[p])
                 else GetDone(app, p, Some(w.db.payments[p]))
    case GetRefresh(app, p, row) =>
      next == if Heard(row, c, "succeeded") then GetApply(app, p, row, Succeeded)
              else if Heard(row, c, "canceled") then GetApply(app, p, row, Canceled)
              else GetDone(app, p, Some(row))
    case GetApply(app, p, row, _) => next == if c.At? then GetReread(app, p, row) else GetDone(app, p, Some(row))
    case GetReread(app, p, row) =>
      next == GetDone(app, p, Some(if c.Go? && Visible(w.db, p, app) then w.db.payments[p] else row))
  }

  lemma GetSteps(w: World, th: Thread, c: Choice)
    requires ThreadOK(w, th) && Accepts(th, c) && Getting(th)
    ensures GetGoes(w, th, c, Perform(w, th, c).thread)
  {
    if th.GetRefresh? {
      SnapshotIsPending(w, th);
      hide ThreadOK, Perform, GetGoes, Accepts;
      RefreshSteps(w, th, c);
    } else {
      hide ThreadOK, GetGoes, Perform, Accepts;
      ReadSteps(w, th, c);
    }
  }

  lemma ReadSteps(w: World, th: Thread, c: Choice)
    requires Accepts(th, c) && Getting(th) && !th.GetRefresh?
    ensures GetGoes(w, th, c, Perform(w, th, c).thread)
  {
    hide PerformBegin, PerformTx, PerformCall, PerformSettle, Heard, GetResult, ApplyProviderStatus;
  }

  lemma SnapshotIsPending(w: World, th: Thread)
    requires ThreadOK(w, th) && th.GetRefresh?
    ensures th.row.status == Pending && th.row.providerId.Some?
  {
  }

  lemma RefreshNext(w: World, th: Thread, c: Choice)
    requires Accepts(th, c) && th.GetRefresh? && th.row.providerId.Some?
    ensures var out := Perform(w, th, c);
            var id := th.row.providerId.value;
            if c.Reply? && GetResult(id, c.exchange).Ok? then
              var next := InternalStatus(GetResult(id, c.exchange).value.status);
              && out.world == w.(readings := w.readings + {Reading(id, next)})
              && out.thread == if CanTransition(th.row.status, next) then GetApply(th.app, th.p, th.row, next)
                               else GetDone(th.app, th.p, Some(th.row))
            else out == Outcome(w, GetDone(th.app, th.p, Some(th.row)))
  {
    hide GetResult, InternalStatus, CanTransition;
  }

  lemma HeardMeans(row: Payment, c: Choice)
    requires c.Reply? && row.providerId.Some?
    ensures GetResult(row.providerId.value, c.exchange).Ok? <==> Hears(row, c)
    ensures Hears(row, c) ==>
              var next := InternalStatus(GetResult(row.providerId.value, c.exchange).value.status);
              && (next == Succeeded <==> Heard(row, c, "succeeded"))
              && (next == Canceled <==> Heard(row, c, "canceled"))
              && (next == Pending <==> Heard(row, c, "pending") || Heard(row, c, "waiting_for_capture"))
  {
    ReadStatus(row.providerId.value, c.exchange);
    hide GetResult, InternalStatus;
  }

  lemma PendingMoves(next: Status)
    ensures CanTransition(Pending, next) <==> next == Succeeded || next == Canceled
  {
  }

  /**
   * A refresh of a pending row goes on to write succeeded exactly when the answer says succeeded, canceled exactly when
   * it says canceled, and otherwise answers with the row it has. What it records is what the answer says.
   */
  lemma RefreshSteps(w: World, th: Thread, c: Choice)
    requires Accepts(th, c) && th.GetRefresh? && th.row.status == Pending && th.row.providerId.Some?
    ensures GetGoes(w, th, c, Perform(w, th, c).thread)
    ensures Perform(w, th, c).world
            == if !Hears(th.row, c) then w
               else w.(readings := w.readings + {Reading(th.row.providerId.value,
                                                         if Heard(th.row, c, "succeeded") then Succeeded
                                                         else if Heard(th.row, c, "canceled") then Canceled else Pending)})
  {
    RefreshNext(w, th, c);
    hide Perform, Accepts;
    if c.Reply? { HeardMeans(th.row, c); }
    hide GetResult, Carries, InternalStatus, CanTransition;
    PendingMoves(Succeeded);
    PendingMoves(Canceled);
    PendingMoves(Pending);
    NotHeard(th.row, c);
    hide Hears, Heard;
  }

  lemma NotHeard(row: Payment, c: Choice)
    ensures !c.Reply? ==> !Hears(row, c)
    ensures !Hears(row, c) ==> !Heard(row, c, "succeeded") && !Heard(row, c, "canceled")
    ensures !(Heard(row, c, "succeeded") && Heard(row, c, "canceled"))
  {
    hide Carries;
  }

  // ---- over runs ----

  /** At step j get request t read this row, or found none: it is the row of the table at that moment. */
  ghost predicate ReadAt(r: Execution, j: nat, t: nat, found: Option<Payment>)
    requires |r.states| == |r.labels| + 1
  {
    && j < |r.labels| && r.labels[j].Step? && r.labels[j].t == t && t in r.states[j].threads
    && var th, db := r.states[j].threads[t], r.states[j].world.db;
       && (th.GetRead? || th.GetReread?)
       && found == if Visible(db, th.p, th.app) then Some(db.payments[th.p]) else None
  }

  ghost predicate DiedAt(r: Execution, j: nat, t: nat)
    requires |r.states| == |r.labels| + 1
  {
    j < |r.labels| && r.labels[j] == Die(t)
  }

  /** The row a get request holds, or has answered with. */
  function Held(th: Thread): Option<Payment>
    requires !CreateThread(th) && !th.GetRead?
  {
    if th.GetDone? then th.found else Some(th.row)
  }

  lemma HeldStep(w: World, th: Thread, c: Choice)
    requires ThreadOK(w, th) && Accepts(th, c) && Getting(th)
    ensures var next := Perform(w, th, c).thread;
            && !CreateThread(next) && !next.GetRead? && next.app == th.app && next.p == th.p
            && (|| (!th.GetRead? && Held(next) == Held(th))
                || ((th.GetRead? || th.GetReread?)
                    && Held(next) == if Visible(w.db, th.p, th.app) then Some(w.db.payments[th.p]) else None))
  {
    hide Perform, Accepts;
    GetSteps(w, th, c);
    hide ThreadOK, Heard, RefreshDue;
  }

  lemma StepsOn(th: Thread, c: Choice)
    requires Accepts(th, c)
    ensures !CreateThread(th) ==> Getting(th)
  {
  }

  lemma HeldMoves(s: State, l: Label, t: nat)
    requires Inv(s) && Enabled(s, l) && t in Apply(s, l).threads
    requires !CreateThread(Apply(s, l).threads[t]) && !Apply(s, l).threads[t].GetRead?
    ensures t in s.threads && !CreateThread(s.threads[t])
    ensures var th, next := s.threads[t], Apply(s, l).threads[t];
            || (!th.GetRead? && Held(next) == Held(th))
            || (l == Die(t) && Held(next).None?)
            || (l.Step? && l.t == t && (th.GetRead? || th.GetReread?)
                && Held(next) == if Visible(s.world.db, th.p, th.app) then Some(s.world.db.payments[th.p]) else None)
  {
    hide Inv, Perform, Accepts, Fresh, Unblocked;
    if l.Step? && l.t == t {
      hide Held;
      StepsOn(s.threads[t], l.choice);
      InvParts(s, t);
      hide WorldOK, ThreadOK;
      StepKeepsRequest(s.world, s.threads[t], l.choice);
      HeldStep(s.world, s.threads[t], l.choice);
    }
  }

  /**
   * A get request answers with the application's row as the table had it at one of the request's own reads. It answers
   * that there is none only if at its read the application had no such payment, or it died.
   */
  lemma {:induction false} FoundIsCurrent(r: Execution, i: nat, t: nat)
    requires ValidRun(r) && i < |r.states| && t in r.states[i].threads
    requires !CreateThread(r.states[i].threads[t]) && !r.states[i].threads[t].GetRead?
    ensures var found := Held(r.states[i].threads[t]);
            exists j: nat :: j < i && (ReadAt(r, j, t, found) || (DiedAt(r, j, t) && found.None?))
  {
    hide Inv, Enabled, Apply, Held;
    if i > 0 {
      var s, l := r.states[i - 1], r.labels[i - 1];
      RunInv(r, i - 1);
      HeldMoves(s, l, t);
      var found := Held(r.states[i].threads[t]);
      if !s.threads[t].GetRead? && Held(s.threads[t]) == found {
        FoundIsCurrent(r, i - 1, t);
      } else {
        assert ReadAt(r, i - 1, t, found) || DiedAt(r, i - 1, t);
      }
    }
  }

  /** Once its write is done, a refreshing request finds its row settled, whoever settled it. */
  lemma {:induction false} SettledOnReread(r: Execution, i: nat, t: nat)
    requires ValidRun(r) && i < |r.states| && t in r.states[i].threads && r.states[i].threads[t].GetReread?
    ensures var th, db := r.states[i].threads[t], r.states[i].world.db;
            Visible(db, th.p, th.app) && (db.payments[th.p].status == Succeeded || db.payments[th.p].status == Canceled)
  {
    hide Inv, Enabled, Apply;
    if i > 0 {
      RunInv(r, i - 1);
      RunInv(r, i);
      RereadVisible(r.states[i], t);
      SettlingStep(r.states[i - 1], r.labels[i - 1], t);
      if r.states[i - 1].threads[t].GetReread? {
        SettledOnReread(r, i - 1, t);
        StepIsLegal(r.states[i - 1], r.labels[i - 1], r.states[i].threads[t].p);
      }
    }
  }

  lemma RereadVisible(s: State, t: nat)
    requires Inv(s) && t in s.threads && s.threads[t].GetReread?
    ensures Visible(s.world.db, s.threads[t].p, s.threads[t].app)
  {
    InvParts(s, t);
    hide Inv, WorldOK;
    SnapshotVisible(s.world, s.threads[t]);
    hide ThreadOK;
  }

  lemma SnapshotVisible(w: World, th: Thread)
    requires ThreadOK(w, th) && th.GetReread?
    ensures Visible(w.db, th.p, th.app)
  {
  }

  lemma SettlingStep(s: State, l: Label, t: nat)
    requires Inv(s) && Enabled(s, l) && t in Apply(s, l).threads && Apply(s, l).threads[t].GetReread?
    ensures t in s.threads && (s.threads[t] == Apply(s, l).threads[t] || s.threads[t].GetApply?)
    ensures s.threads[t].p == Apply(s, l).threads[t].p
    ensures s.threads[t].GetApply? ==>
              var db, p := Apply(s, l).world.db, s.threads[t].p;
              p in db.payments && (db.payments[p].status == Succeeded || db.payments[p].status == Canceled)
  {
    hide Inv, Perform, Accepts, Fresh, Unblocked;
    if l.Step? && l.t == t {
      InvParts(s, t);
      hide WorldOK, ThreadOK;
      StepFollows(s.world, s.threads[t], l.choice);
      StepKeepsRequest(s.world, s.threads[t], l.choice);
      BeforeReread(s.world, s.threads[t], Perform(s.world, s.threads[t], l.choice).thread);
      ApplySettles(s.world, s.threads[t], l.choice);
    }
  }

  lemma BeforeReread(w: World, th: Thread, next: Thread)
    requires Follows(th, next) && SameRequest(th, next) && next.GetReread?
    ensures th.GetApply? && th.p == next.p
  {
  }

  lemma ApplySettles(w: World, th: Thread, c: Choice)
    requires WorldOK(w) && ThreadOK(w, th) && Accepts(th, c) && th.GetApply? && Perform(w, th, c).thread.GetReread?
    ensures var db := Perform(w, th, c).world.db;
            th.p in db.payments && (db.payments[th.p].status == Succeeded || db.payments[th.p].status == Canceled)
  {
    hide WorldOK;
    WorldSteps.AtPayment(w, th.p);
    assert RowOK(w.db.payments[th.p]);
    hide PaymentOK, PerformBegin, PerformTx, PerformCall, PerformSettle;
  }

  /** At step j the provider was asked about this id and its answer said so. */
  ghost predicate ToldAt(r: Execution, j: nat, x: Reading)
    requires |r.states| == |r.labels| + 1
  {
    && j < |r.labels| && r.labels[j].Step? && r.labels[j].t in r.states[j].threads
    && var th, c := r.states[j].threads[r.labels[j].t], r.labels[j].choice;
       && th.GetRefresh? && th.row.providerId == Some(x.id) && c.Reply? && Carries(c.exchange)
       && StandsFor(c.exchange.payment.value.status, x.status)
  }

  lemma {:induction false} ReadingWasTold(r: Execution, i: nat, x: Reading)
    requires ValidRun(r) && i < |r.states| && x in r.states[i].world.readings
    ensures exists j: nat :: j < i && ToldAt(r, j, x)
  {
    hide Inv, Enabled, Apply, ToldAt;
    if i > 0 {
      if x in r.states[i - 1].world.readings {
        ReadingWasTold(r, i - 1, x);
      } else {
        RunInv(r, i - 1);
        ReadingsComeFromAnswers(r.states[i - 1], r.labels[i - 1], x);
        assert ToldAt(r, i - 1, x) by { TellsAt(r, i - 1, x); }
      }
    }
  }

  lemma TellsAt(r: Execution, j: nat, x: Reading)
    requires |r.states| == |r.labels| + 1 && j < |r.labels| && r.labels[j].Step? && r.labels[j].t in r.states[j].threads
    requires r.states[j].threads[r.labels[j].t].GetRefresh? && r.labels[j].choice.Reply?
    requires r.states[j].threads[r.labels[j].t].row.providerId == Some(x.id)
    requires Carries(r.labels[j].choice.exchange) && StandsFor(r.labels[j].choice.exchange.payment.value.status, x.status)
    ensures ToldAt(r, j, x)
  {
  }

  /**
   * In every run a row is succeeded only if an earlier answer to a read of its own provider id said "succeeded", and a
   * row with a provider id is canceled only if such an answer said "canceled".
   */
  lemma SettledWasTold(r: Execution, i: nat, p: Uuid)
    requires ValidRun(r) && i < |r.states| && p in r.states[i].world.db.payments
    ensures var row := r.states[i].world.db.payments[p];
            row.status == Succeeded || (row.status == Canceled && row.providerId.Some?) ==>
              row.providerId.Some? && exists j: nat :: j < i && ToldAt(r, j, Reading(row.providerId.value, row.status))
  {
    hide Inv, Enabled, Apply, ToldAt;
    RunInv(r, i);
    AtPaymentOf(r.states[i], p);
    var row := r.states[i].world.db.payments[p];
    if row.status == Succeeded || (row.status == Canceled && row.providerId.Some?) {
      ReadingWasTold(r, i, Reading(row.providerId.value, row.status));
    }
  }
}
