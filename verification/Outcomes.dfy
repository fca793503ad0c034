/**
 * What becomes of a create request once its provider call was answered (internal/payments/service.go:350-406): the
 * answer alone decides it, whatever other requests do meanwhile, unless the request dies first.
 */
module Outcomes {
  import opened Basics
  import opened PaymentStates
  import opened ProviderClient
  import opened Tables
  import opened Protocol
  import opened Effects
  import opened Invariant
  import opened Runs
  import opened Histories
  import opened Idempotency
  import opened Columns
  import Isolation
  import WorldSteps

  /** The code a refusal reports. */
  predicate CodeFits(code: ErrorCode, x: Exchange) {
    if x.Answer? && (x.httpStatus == 401 || x.httpStatus == 403 || x.bodyCode == "invalid_credentials")
    then code == AuthFailed else code == InvalidRequest
  }

  predicate Url(x: Exchange, url: string)
    requires Carries(x)
  {
    url == if x.payment.value.confirmation.Some? then x.payment.value.confirmation.value else ""
  }

  /**
   * The step that takes the answer writes nothing. It goes on to cancel exactly when nothing was sent or the answer is
   * outside 2xx, 429 and 5xx, to store exactly when the answer carries a payment, and to leave it unknown otherwise.
   */
  lemma AnswerSettles(w: World, th: Thread, c: Choice)
    requires Accepts(th, c) && c.Reply? && (th.AwaitAnswer? || th.CallProvider?)
    ensures var x, next := c.exchange, Perform(w, th, c).thread;
            && Perform(w, th, c).world == w
            && Resolved(next) && next.req == th.req && next.local == th.local
            && (next.PersistCanceled? <==>
                  x.NotBuilt? || (x.Answer? && (x.httpStatus < 200 || 300 <= x.httpStatus < 500) && x.httpStatus != 429))
            && (next.PersistCreated? <==> Carries(x))
            && (next.PersistCanceled? ==> CodeFits(next.code, x))
            && (next.PersistCreated? ==> next.id == x.payment.value.id && Url(x, next.url))
  {
    AnswerTakes(w, th, c);
    hide Perform, Accepts, AfterCall;
    AnswerLeads(th.req, th.local, c.exchange);
    DefinitiveIsRefusal(c.exchange);
    hide CreateResult, Carries, CodeFits;
  }

  lemma AnswerTakes(w: World, th: Thread, c: Choice)
    requires Accepts(th, c) && c.Reply? && (th.AwaitAnswer? || th.CallProvider?)
    ensures Perform(w, th, c) == Outcome(w, AfterCall(th.req, th.local, c.exchange))
  {
    hide AfterCall, RequestOf;
  }

  lemma AnswerLeads(req: CreateRequest, l: Local, x: Exchange)
    ensures var next := AfterCall(req, l, x);
            && Resolved(next) && next.req == req && next.local == l
            && (next.PersistCanceled? <==> Refusal(x)) && (next.PersistCreated? <==> Carries(x))
            && (next.PersistCanceled? ==> CodeFits(next.code, x))
            && (next.PersistCreated? ==> next.id == x.payment.value.id && Url(x, next.url))
  {
    DefinitiveIsRefusal(x);
    PaymentOnlyFromAnswer(x);
    if CreateResult(x).Err? { RefusalCode(x); }
    hide CreateResult, Carries, Refusal, CodeFits;
  }

  lemma RefusalCode(x: Exchange)
    requires CreateResult(x).Err?
    ensures Refusal(x) ==> CodeFits(CreateResult(x).error.code, x)
  {
    CodesExactly(x);
    hide CreateResult;
  }

  // ---- from the answer to the response ----

  ghost predicate Carried(w: World, p: Uuid, id: ProviderId) {
    exists q :: q in w.db.payments && q != p && w.db.payments[q].providerId == Some(id)
  }

  ghost predicate Stored(row: Payment, x: Exchange)
    requires Carries(x)
  {
    row.providerId == Some(x.payment.value.id) && row.checkoutUrl.Some? && Url(x, row.checkoutUrl.value)
  }

  ghost predicate Refused(w: World, th: Thread, p: Uuid, x: Exchange)
    requires p in w.db.payments
  {
    || (th.PersistCanceled? && CodeFits(th.code, x))
    || (th.CompleteCanceled? && CodeFits(th.code, x) && w.db.payments[p].status == Canceled)
    || (th.CreateDone? && th.response.Failed? && th.response.failure.Refused?
        && CodeFits(th.response.failure.code, x) && w.db.payments[p].status == Canceled)
  }

  ghost predicate Carrying(w: World, th: Thread, p: Uuid, x: Exchange)
    requires p in w.db.payments && Carries(x)
  {
    || (th.PersistCreated? && th.id == x.payment.value.id && Url(x, th.url))
    || ((th.CompleteCreated? || th.RereadCreated?) && Stored(w.db.payments[p], x))
    || (th.CreateDone? && th.response.Accepted? && !th.response.pending && !th.response.replayed
        && Stored(th.response.row, x) && Stored(w.db.payments[p], x))
    || (th.CreateDone? && th.response == Failed(Internal) && Carried(w, p, x.payment.value.id))
  }

  ghost predicate Unknown(w: World, th: Thread, p: Uuid)
    requires p in w.db.payments
  {
    || th.PersistUnknown?
    || ((th.CompleteUnknown? || th.RereadUnknown?) && w.db.payments[p].status == CreationUnknown)
    || (th.CreateDone? && th.response.Accepted? && th.response.pending && !th.response.replayed
        && th.response.row.status == CreationUnknown && w.db.payments[p].status == CreationUnknown)
  }

  /** How far an answered request has come, and what its row says by then. */
  ghost predicate Course(w: World, th: Thread, p: Uuid, x: Exchange)
    requires p in w.db.payments
  {
    if Refusal(x) then Refused(w, th, p, x) else if Carries(x) then Carrying(w, th, p, x) else Unknown(w, th, p)
  }

  ghost predicate OnCourse(s: State, t: nat, p: Uuid, x: Exchange) {
    && t in s.threads && CreateThread(s.threads[t]) && p in s.world.db.payments
    && s.threads[t].req.Key() in s.world.db.requests
    && s.world.db.requests[s.threads[t].req.Key()].payment == Some(p)
    && Course(s.world, s.threads[t], p, x)
  }

  /** The provider's answer reaches request t. */
  ghost predicate Answers(s: State, l: Label, t: nat, x: Exchange) {
    l == Step(t, Reply(x)) && t in s.threads && (s.threads[t].AwaitAnswer? || s.threads[t].CallProvider?)
  }

  lemma OwnerOf(w: World, th: Thread)
    requires ThreadOK(w, th) && (Calling(th) || Settling(th))
    ensures th.req.Key() in w.db.requests && w.db.requests[th.req.Key()].payment == Some(th.local.payment)
    ensures th.local.payment in w.db.payments
  {
    Isolation.OwnerOwns(w, th);
    hide ThreadOK;
  }

  lemma CourseBegins(s: State, l: Label, t: nat, x: Exchange)
    requires Inv(s) && Enabled(s, l) && Answers(s, l, t, x)
    ensures OnCourse(Apply(s, l), t, s.threads[t].local.payment, x)
  {
    hide Inv, Perform, Accepts, Fresh, Unblocked, Carries, Refusal;
    InvParts(s, t);
    hide WorldOK, Course;
    OwnerOf(s.world, s.threads[t]);
    hide ThreadOK;
    FirstStage(s.world, s.threads[t], l.choice, s.threads[t].local.payment);
  }

  lemma FirstStage(w: World, th: Thread, c: Choice, p: Uuid)
    requires Accepts(th, c) && c.Reply? && (th.AwaitAnswer? || th.CallProvider?) && p in w.db.payments
    ensures var out := Perform(w, th, c);
            && out.world == w && CreateThread(out.thread) && out.thread.req == th.req
            && Course(w, out.thread, p, c.exchange)
  {
    hide Perform, Accepts, Carries, Refusal, CodeFits, Url, Refused, Carrying, Unknown;
    AnswerSettles(w, th, c);
    DefinitiveIsRefusal(c.exchange);
    FirstIs(w, Perform(w, th, c).thread, p, c.exchange);
  }

  lemma FirstIs(w: World, next: Thread, p: Uuid, x: Exchange)
    requires Resolved(next) && p in w.db.payments
    requires next.PersistCanceled? ==> CodeFits(next.code, x)
    requires next.PersistCreated? && Carries(x) ==> next.id == x.payment.value.id && Url(x, next.url)
    ensures CreateThread(next)
    ensures next.PersistCanceled? ==> Refused(w, next, p, x)
    ensures next.PersistCreated? && Carries(x) ==> Carrying(w, next, p, x)
    ensures next.PersistUnknown? ==> Unknown(w, next, p)
  {
    hide Carries, CodeFits, Url;
  }

  /** What others do, and time, change nothing about it. */
  lemma CourseStays(s: State, l: Label, t: nat, p: Uuid, x: Exchange)
    requires Inv(s) && Enabled(s, l) && OnCourse(s, t, p, x) && l.t != t
    ensures OnCourse(Apply(s, l), t, p, x)
  {
    hide Inv, Enabled, Apply, Course;
    KeyStep(s, l, s.threads[t].req.Key());
    StepIsLegal(s, l, p);
    ThreadUntouched(s, l, t);
    if Carries(x) && Carried(s.world, p, x.payment.value.id) { CarriedStays(s, l, p, x.payment.value.id); }
    CourseLater(s.world, Apply(s, l).world, s.threads[t], p, x);
  }

  lemma ThreadUntouched(s: State, l: Label, t: nat)
    requires Enabled(s, l) && l.t != t && t in s.threads
    ensures t in Apply(s, l).threads && Apply(s, l).threads[t] == s.threads[t]
  {
    hide Perform, Accepts;
  }

  lemma CarriedStays(s: State, l: Label, p: Uuid, id: ProviderId)
    requires Inv(s) && Enabled(s, l) && Carried(s.world, p, id)
    ensures Carried(Apply(s, l).world, p, id)
  {
    hide Inv, Enabled, Apply;
    var q :| q in s.world.db.payments && q != p && s.world.db.payments[q].providerId == Some(id);
    StepIsLegal(s, l, q);
  }

  lemma CourseLater(w: World, w': World, th: Thread, p: Uuid, x: Exchange)
    requires p in w.db.payments && p in w'.db.payments && Later(w.db.payments[p], w'.db.payments[p]) && Course(w, th, p, x)
    requires Carries(x) && Carried(w, p, x.payment.value.id) ==> Carried(w', p, x.payment.value.id)
    ensures Course(w', th, p, x)
  {
    hide Carries, Refusal, Refused, Carrying, Unknown, Carried;
    LaterMeans(w.db.payments[p], w'.db.payments[p]);
    hide Later;
    if Refusal(x) {
      RefusedLater(w, w', th, p, x);
    } else if Carries(x) {
      CarryingLater(w, w', th, p, x);
    } else {
      UnknownLater(w, w', th, p);
    }
  }

  lemma RefusedLater(w: World, w': World, th: Thread, p: Uuid, x: Exchange)
    requires p in w.db.payments && p in w'.db.payments && Refused(w, th, p, x)
    requires w.db.payments[p].status == Canceled ==> w'.db.payments[p].status == Canceled
    ensures Refused(w', th, p, x)
  {
    hide CodeFits;
  }

  lemma CarryingLater(w: World, w': World, th: Thread, p: Uuid, x: Exchange)
    requires p in w.db.payments && p in w'.db.payments && Carries(x) && Carrying(w, th, p, x)
    requires var a, b := w.db.payments[p], w'.db.payments[p];
             a.providerId.Some? ==> b.providerId == a.providerId && b.checkoutUrl == a.checkoutUrl
    requires Carried(w, p, x.payment.value.id) ==> Carried(w', p, x.payment.value.id)
    ensures Carrying(w', th, p, x)
  {
    hide Carries, Url, Carried;
  }

  lemma UnknownLater(w: World, w': World, th: Thread, p: Uuid)
    requires p in w.db.payments && p in w'.db.payments && Unknown(w, th, p)
    requires w.db.payments[p].status == CreationUnknown ==> w'.db.payments[p].status == CreationUnknown
    ensures Unknown(w', th, p)
  {
  }

  lemma LaterMeans(a: Payment, b: Payment)
    requires Later(a, b)
    ensures a.status == Canceled || a.status == CreationUnknown ==> b.status == a.status
    ensures a.providerId.Some? ==> b.providerId == a.providerId && b.checkoutUrl == a.checkoutUrl
  {
  }

  /** Where a settling request goes. */
  ghost predicate Settlement(w: World, th: Thread, next: Thread)
    requires Settling(th) && th.local.payment in w.db.payments
  {
    var row := w.db.payments[th.local.payment];
    match th
    case PersistCreated(req, l, id, _) => next == if Carried(w, l.payment, id) then Fail(req, Internal) else CompleteCreated(req, l)
    case PersistUnknown(req, l, code) => next == CompleteUnknown(req, l, code)
    case PersistCanceled(req, l, code) => next == CompleteCanceled(req, l, code)
    case CompleteCreated(req, l) => next == RereadCreated(req, l)
    case CompleteUnknown(req, l, _) => next == RereadUnknown(req, l)
    case CompleteCanceled(req, l, code) => next == Fail(req, Failure.Refused(code))
    case RereadCreated(req, l) => next == CreateDone(req, Accepted(l.payment, row, false, false))
    case RereadUnknown(req, l) => next == CreateDone(req, Accepted(l.payment, row, false, true))
  }

  lemma SettleMoves(w: World, th: Thread, c: Choice)
    requires ThreadOK(w, th) && Accepts(th, c) && Settling(th)
    ensures th.local.payment in w.db.payments && Settlement(w, th, Perform(w, th, c).thread)
  {
    OwnerOf(w, th);
    RowIsOwn(w, th);
    hide ThreadOK;
    if th.RereadCreated? || th.RereadUnknown? {
      RereadMoves(w, th, c);
    } else {
      hide Settlement;
      WriteMoves(w, th, c);
    }
  }

  lemma RereadMoves(w: World, th: Thread, c: Choice)
    requires Accepts(th, c) && (th.RereadCreated? || th.RereadUnknown?)
    requires th.local.payment in w.db.payments && w.db.payments[th.local.payment].slot.app == th.req.slot.app
    ensures Settlement(w, th, Perform(w, th, c).thread)
  {
    hide PerformBegin, PerformTx, PerformCall, PerformGet, Carried;
  }

  lemma WriteMoves(w: World, th: Thread, c: Choice)
    requires Accepts(th, c) && Settling(th) && !th.RereadCreated? && !th.RereadUnknown? && th.local.payment in w.db.payments
    ensures Settlement(w, th, Perform(w, th, c).thread)
  {
    hide PerformBegin, PerformTx, PerformCall, PerformGet;
    hide SetPaymentCreated, SetPaymentCreationUnknown, SetPaymentCanceled, Complete;
  }

  lemma RowIsOwn(w: World, th: Thread)
    requires ThreadOK(w, th) && Settling(th)
    ensures th.local.payment in w.db.payments && w.db.payments[th.local.payment].slot.app == th.req.slot.app
  {
    Isolation.OwnerOwns(w, th);
    hide ThreadOK;
  }

  lemma RefusedMoves(w: World, th: Thread, c: Choice, w': World, next: Thread, x: Exchange)
    requires Settling(th) && Accepts(th, c) && th.local.payment in w.db.payments && th.local.payment in w'.db.payments
    requires Settlement(w, th, next) && RowBecomes(w, th, c, th.local.payment, w'.db.payments[th.local.payment])
    requires Refused(w, th, th.local.payment, x)
    ensures Refused(w', next, th.local.payment, x) && next.req == th.req
  {
    hide CodeFits, Carried;
  }

  lemma CarryingMoves(w: World, th: Thread, c: Choice, w': World, next: Thread, x: Exchange)
    requires Settling(th) && Accepts(th, c) && th.local.payment in w.db.payments && th.local.payment in w'.db.payments
    requires Settlement(w, th, next) && RowBecomes(w, th, c, th.local.payment, w'.db.payments[th.local.payment])
    requires Carries(x) && Carrying(w, th, th.local.payment, x)
    requires Carried(w, th.local.payment, x.payment.value.id) ==> Carried(w', th.local.payment, x.payment.value.id)
    ensures CreateThread(next) && next.req == th.req && Carrying(w', next, th.local.payment, x)
  {
    hide Carries, Url;
    if th.PersistCreated? {
      StoreMoves(w, th, c, w', next, x);
    } else {
      hide Carried, Stored;
      RowStands(w, th, c, w'.db.payments[th.local.payment]);
      hide RowBecomes, Accepts;
    }
  }

  lemma RowStands(w: World, th: Thread, c: Choice, b: Payment)
    requires Settling(th) && !Resolved(th) && th.local.payment in w.db.payments && RowBecomes(w, th, c, th.local.payment, b)
    ensures b == w.db.payments[th.local.payment]
  {
  }

  lemma StoreMoves(w: World, th: Thread, c: Choice, w': World, next: Thread, x: Exchange)
    requires th.PersistCreated? && Accepts(th, c) && th.local.payment in w.db.payments && th.local.payment in w'.db.payments
    requires Settlement(w, th, next) && RowBecomes(w, th, c, th.local.payment, w'.db.payments[th.local.payment])
    requires Carries(x) && Carrying(w, th, th.local.payment, x)
    requires Carried(w, th.local.payment, x.payment.value.id) ==> Carried(w', th.local.payment, x.payment.value.id)
    ensures CreateThread(next) && next.req == th.req && Carrying(w', next, th.local.payment, x)
  {
    hide Carries, Url;
  }

  lemma UnknownMoves(w: World, th: Thread, c: Choice, w': World, next: Thread)
    requires Settling(th) && Accepts(th, c) && th.local.payment in w.db.payments && th.local.payment in w'.db.payments
    requires Settlement(w, th, next) && RowBecomes(w, th, c, th.local.payment, w'.db.payments[th.local.payment])
    requires Unknown(w, th, th.local.payment)
    ensures CreateThread(next) && next.req == th.req && Unknown(w', next, th.local.payment)
  {
    hide Carried;
    if !Resolved(th) {
      RowStands(w, th, c, w'.db.payments[th.local.payment]);
      hide RowBecomes, Accepts;
    }
  }

  /** Its own next step keeps it on course. */
  lemma CourseMoves(s: State, l: Label, t: nat, p: Uuid, x: Exchange)
    requires Inv(s) && Enabled(s, l) && OnCourse(s, t, p, x) && l.Step? && l.t == t
    ensures OnCourse(Apply(s, l), t, p, x)
  {
    hide Inv, Enabled, Apply, Course;
    KeyStep(s, l, s.threads[t].req.Key());
    StepIsLegal(s, l, p);
    RowWrites(s, t, l.choice, p);
    if Carries(x) && Carried(s.world, p, x.payment.value.id) { CarriedStays(s, l, p, x.payment.value.id); }
    InvParts(s, t);
    StepTakes(s, l);
    StageMoves(s.world, s.threads[t], l.choice, p, x);
  }

  lemma StepTakes(s: State, l: Label)
    requires Enabled(s, l) && l.Step?
    ensures l.t in s.threads && Accepts(s.threads[l.t], l.choice)
    ensures Apply(s, l).world == Perform(s.world, s.threads[l.t], l.choice).world
    ensures l.t in Apply(s, l).threads && Apply(s, l).threads[l.t] == Perform(s.world, s.threads[l.t], l.choice).thread
  {
    hide Perform, Accepts;
  }

  lemma StageMoves(w: World, th: Thread, c: Choice, p: Uuid, x: Exchange)
    requires ThreadOK(w, th) && CreateThread(th) && Accepts(th, c) && p in w.db.payments && Course(w, th, p, x)
    requires th.req.Key() in w.db.requests && w.db.requests[th.req.Key()].payment == Some(p)
    requires var w' := Perform(w, th, c).world;
             && p in w'.db.payments && RowBecomes(w, th, c, p, w'.db.payments[p])
             && (Carries(x) && Carried(w, p, x.payment.value.id) ==> Carried(w', p, x.payment.value.id))
    ensures var out := Perform(w, th, c);
            CreateThread(out.thread) && out.thread.req == th.req && Course(out.world, out.thread, p, x)
  {
    hide Perform, ThreadOK, RowBecomes, Carried, Carries, Refusal, Refused, Carrying, Unknown, Settlement, Accepts;
    CourseSettles(w, th, c, p, x);
    OwnerOf(w, th);
    SettleMoves(w, th, c);
    var out := Perform(w, th, c);
    if Refusal(x) {
      RefusedMoves(w, th, c, out.world, out.thread, x);
      RefusedCreates(out.world, out.thread, p, x);
    } else if Carries(x) {
      CarryingMoves(w, th, c, out.world, out.thread, x);
    } else {
      UnknownMoves(w, th, c, out.world, out.thread);
    }
  }

  lemma CourseSettles(w: World, th: Thread, c: Choice, p: Uuid, x: Exchange)
    requires Accepts(th, c) && p in w.db.payments && Course(w, th, p, x)
    ensures Settling(th)
  {
    hide Carries, Refusal, CodeFits, Url, Carried, Stored;
  }

  lemma RefusedCreates(w: World, th: Thread, p: Uuid, x: Exchange)
    requires p in w.db.payments && Refused(w, th, p, x)
    ensures CreateThread(th)
  {
    hide CodeFits;
  }

  // ---- the result ----

  ghost predicate SurvivesFrom(r: Execution, j: nat, i: nat, t: nat)
    requires |r.states| == |r.labels| + 1
  {
    j <= i < |r.states| && forall k :: j <= k < i ==> r.labels[k] != Die(t)
  }

  /** From its answer on, every request that does not die is on course. */
  lemma {:induction false} StaysOnCourse(r: Execution, j: nat, i: nat, t: nat, x: Exchange)
    requires ValidRun(r) && j < i && SurvivesFrom(r, j, i, t) && Answers(r.states[j], r.labels[j], t, x)
    ensures OnCourse(r.states[i], t, r.states[j].threads[t].local.payment, x)
    decreases i
  {
    hide Inv, Enabled, Apply, OnCourse;
    RunInv(r, i - 1);
    var p := r.states[j].threads[t].local.payment;
    var s, l := r.states[i - 1], r.labels[i - 1];
    if i == j + 1 {
      CourseBegins(s, l, t, x);
    } else {
      StaysOnCourse(r, j, i - 1, t, x);
      if l.t != t {
        CourseStays(s, l, t, p, x);
      } else {
        NotStarted(s, l, t, p, x);
        CourseMoves(s, l, t, p, x);
      }
    }
  }

  lemma NotStarted(s: State, l: Label, t: nat, p: Uuid, x: Exchange)
    requires Enabled(s, l) && OnCourse(s, t, p, x) && l.t == t && l != Die(t)
    ensures l.Step?
  {
    hide Course, Perform, Accepts;
  }

  /** What the client is told about an answered call, and what its row then says. */
  ghost predicate Told(w: World, response: CreateResponse, p: Uuid, x: Exchange)
    requires p in w.db.payments
  {
    var row := w.db.payments[p];
    && (response.Failed? && response.failure.Refused? <==> Refusal(x))
    && (Refusal(x) ==> CodeFits(response.failure.code, x) && row.status == Canceled)
    && (response.Accepted? && response.pending <==> !Refusal(x) && !Carries(x))
    && (!Refusal(x) && !Carries(x) ==> response.row.status == CreationUnknown && row.status == CreationUnknown)
    && (response == Failed(Internal) <==> Carries(x) && Carried(w, p, x.payment.value.id))
    && (response.Accepted? && !response.pending ==> Carries(x) && Stored(response.row, x) && Stored(row, x))
    && (response.Accepted? ==> !response.replayed)
    && (response.Failed? ==> response.failure.Refused? || response.failure.Internal?)
  }

  lemma CourseEnds(w: World, th: Thread, p: Uuid, x: Exchange)
    requires th.CreateDone? && p in w.db.payments && Course(w, th, p, x) && ProviderIdsUnique(w.db)
    ensures Told(w, th.response, p, x)
  {
    NeverBoth(x);
    hide Refusal, Carries, Refused, Carrying, Unknown, ProviderIdsUnique, Stored, Carried, CodeFits;
    if Refusal(x) {
      RefusedEnds(w, th, p, x);
    } else if Carries(x) {
      CarryingEnds(w, th, p, x);
    } else {
      UnknownEnds(w, th, p);
    }
  }

  lemma NeverBoth(x: Exchange)
    ensures !(Refusal(x) && Carries(x))
  {
  }

  lemma RefusedEnds(w: World, th: Thread, p: Uuid, x: Exchange)
    requires th.CreateDone? && p in w.db.payments && Refused(w, th, p, x)
    ensures th.response.Failed? && th.response.failure.Refused? && CodeFits(th.response.failure.code, x)
    ensures w.db.payments[p].status == Canceled
  {
    hide CodeFits;
  }

  lemma CarryingEnds(w: World, th: Thread, p: Uuid, x: Exchange)
    requires th.CreateDone? && p in w.db.payments && Carries(x) && Carrying(w, th, p, x) && ProviderIdsUnique(w.db)
    ensures th.response == Failed(Internal) <==> Carried(w, p, x.payment.value.id)
    ensures th.response == Failed(Internal)
         || (th.response.Accepted? && !th.response.pending && !th.response.replayed
             && Stored(th.response.row, x) && Stored(w.db.payments[p], x))
  {
    hide Carries, Url, Carried, Stored, ProviderIdsUnique;
    if Stored(w.db.payments[p], x) { StoredAlone(w, p, x); }
  }

  lemma StoredAlone(w: World, p: Uuid, x: Exchange)
    requires p in w.db.payments && Carries(x) && Stored(w.db.payments[p], x) && ProviderIdsUnique(w.db)
    ensures !Carried(w, p, x.payment.value.id)
  {
    hide Carries, Url;
  }

  lemma UnknownEnds(w: World, th: Thread, p: Uuid)
    requires th.CreateDone? && p in w.db.payments && Unknown(w, th, p)
    ensures th.response.Accepted? && th.response.pending && !th.response.replayed
    ensures th.response.row.status == CreationUnknown && w.db.payments[p].status == CreationUnknown
  {
  }

  /**
   * The answer decides the response. A request that did not die after its call was answered reports a refusal, with its
   * code and a canceled row, exactly for the answers that prove there is no payment; pending with an unknown row exactly
   * for the answers that prove nothing; and otherwise the payment of the answer, or an error exactly when another row
   * carries its id.
   */
  lemma AnswerDecides(r: Execution, j: nat, i: nat, t: nat, x: Exchange)
    requires ValidRun(r) && j < i && SurvivesFrom(r, j, i, t) && Answers(r.states[j], r.labels[j], t, x)
    requires t in r.states[i].threads && r.states[i].threads[t].CreateDone?
    ensures var p := r.states[j].threads[t].local.payment;
            p in r.states[i].world.db.payments && Told(r.states[i].world, r.states[i].threads[t].response, p, x)
  {
    hide Inv, Enabled, Apply, Told, Course;
    StaysOnCourse(r, j, i, t, x);
    RunInv(r, i);
    IdsUnique(r.states[i]);
    CourseEnds(r.states[i].world, r.states[i].threads[t], r.states[j].threads[t].local.payment, x);
  }

  lemma IdsUnique(s: State)
    requires Inv(s)
    ensures ProviderIdsUnique(s.world.db)
  {
    hide WorldOK, ProviderIdsUnique;
    WorldSteps.Domains(s.world);
  }
}
