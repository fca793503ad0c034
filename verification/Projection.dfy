/**
 * Non-interference over whole runs: dropping every other application's steps from a run leaves a run, and in it the
 * application's rows and requests are the same at every moment.
 */
module Projection {
  import opened ProviderClient
  import opened Tables
  import opened Protocol
  import opened Effects
  import opened Invariant
  import opened Runs
  import opened Histories
  import opened Isolation

  /** The step belongs to a request of the application. */
  predicate OwnLabel(s: State, l: Label, a: AppId) {
    match l
    case Start(_, th) => AppOf(th) == a
    case Die(t) => t in s.threads && AppOf(s.threads[t]) == a
    case Step(t, _) => t in s.threads && AppOf(s.threads[t]) == a
  }

  /** The labels of the first n steps that belong to the application. */
  function OwnLabels(r: Execution, n: nat, a: AppId): seq<Label>
    requires n <= |r.labels| && |r.states| == |r.labels| + 1
  {
    if n == 0 then []
    else OwnLabels(r, n - 1, a) + (if OwnLabel(r.states[n - 1], r.labels[n - 1], a) then [r.labels[n - 1]] else [])
  }

  /** No answer stores a provider id that only another application's row holds. */
  ghost predicate NoForeignIds(r: Execution, a: AppId)
    requires |r.states| == |r.labels| + 1
  {
    forall i :: 0 <= i < |r.labels| && r.labels[i].Step? && OwnLabel(r.states[i], r.labels[i], a) ==>
      NoForeignId(r.states[i].world, r.states[i].threads[r.labels[i].t])
  }

  /** The application's part of s, alone. */
  ghost predicate Shadows(s: State, alone: State, a: AppId) {
    && Inv(s) && Inv(alone) && ViewOf(alone, a) == ViewOf(s, a)
    && OnlyApp(alone, a)
    && alone.world.issued.Keys <= s.world.issued.Keys
  }

  ghost predicate OnlyApp(s: State, a: AppId) {
    && (forall t :: t in s.threads ==> AppOf(s.threads[t]) == a)
    && (forall p :: p in s.world.db.payments ==> s.world.db.payments[p].slot.app == a)
  }

  /** The random ids a step draws. */
  function Ids(c: Choice, next: Thread): set<Uuid> {
    match c
    case Atomic(p, o, key) => if next.Credentials? then {p, o, key} else {}
    case DrawPayment(p) => {p}
    case DrawOperation(o, key) => {o, key}
    case _ => {}
  }

  lemma IssuedAfter(w: World, th: Thread, c: Choice)
    requires Accepts(th, c)
    ensures Perform(w, th, c).world.issued.Keys == w.issued.Keys + Ids(c, Perform(w, th, c).thread)
  {
    hide Perform;
    StepWrites(w, th, c);
    if th.OpenLocal? && c.Atomic? {
      IssuedAtomic(w, th, c);
    } else {
      hide RequestOf, GetResult, CreateLocal, ProviderIdTaken;
    }
  }

  lemma IssuedAtomic(w: World, th: Thread, c: Choice)
    requires th.OpenLocal? && c.Atomic? && Accepts(th, c)
    ensures WorldAfter(w, th, c).issued.Keys == w.issued.Keys + Ids(c, Perform(w, th, c).thread)
  {
    hide NextAttemptNumber, InsertViolates, OrderHasSucceededPayment, NewPayment, NewOperation, InTx;
    hide PerformTx, PerformCall, PerformSettle, PerformGet;
    assert Perform(w, th, c) == CreateLocal(w, th.req, th.account, c.p, c.o, c.key) by { AtomicPerforms(w, th, c); }
  }

  lemma AtomicPerforms(w: World, th: Thread, c: Choice)
    requires th.OpenLocal? && c.Atomic?
    ensures Accepts(th, c) && Perform(w, th, c) == CreateLocal(w, th.req, th.account, c.p, c.o, c.key)
  {
    hide CreateLocal;
  }

  lemma FreshWithin(w: World, alone: World, c: Choice)
    requires Fresh(w, c) && alone.issued.Keys <= w.issued.Keys
    ensures Fresh(alone, c)
  {
    assert forall id :: id in alone.issued ==> id in w.issued;
  }

  lemma CredentialsErased(x: Thread, y: Thread)
    requires Erased(x) == Erased(y)
    ensures x.Credentials? <==> y.Credentials?
  {
  }

  lemma SameIds(c: Choice, x: Thread, y: Thread)
    requires x.Credentials? <==> y.Credentials?
    ensures Ids(c, x) == Ids(c, y)
  {
  }

  // ---- one step ----

  lemma InView(s: State, alone: State, a: AppId, t: nat)
    requires Shadows(s, alone, a)
    ensures t in alone.threads <==> t in s.threads && AppOf(s.threads[t]) == a
    ensures t in alone.threads ==> Erased(alone.threads[t]) == Erased(s.threads[t])
  {
    hide Inv, Restrict, AppOf, Erased;
    var v, u := ViewOf(alone, a).threads, ViewOf(s, a).threads;
    assert t in v <==> t in u;
    assert t in alone.threads <==> t in v;
  }

  /** Alone there is no foreign row. */
  lemma NothingForeign(alone: State, a: AppId, th: Thread)
    requires OnlyApp(alone, a) && AppOf(th) == a
    ensures NoForeignId(alone.world, th)
  {
    var db := alone.world.db;
    assert forall p :: p in db.payments ==> p in Restrict(db, a).payments && Restrict(db, a).payments[p] == db.payments[p];
  }

  lemma OnlyAppAfter(alone: State, a: AppId, t: nat, c: Choice)
    requires Inv(alone) && OnlyApp(alone, a) && Enabled(alone, Step(t, c))
    ensures OnlyApp(Apply(alone, Step(t, c)), a)
  {
    hide Inv, Accepts, Fresh, Unblocked, Perform, AppOf;
    var after := Apply(alone, Step(t, c));
    AppKept(alone.world, alone.threads[t], c);
    forall p | p in after.world.db.payments ensures after.world.db.payments[p].slot.app == a {
      if p in alone.world.db.payments {
        StepIsLegal(alone, Step(t, c), p);
      } else {
        ThreadIsOK(alone, t);
        NewRowIsOwn(alone.world, alone.threads[t], c, p);
      }
    }
  }

  lemma ThreadIsOK(s: State, t: nat)
    requires Inv(s) && t in s.threads
    ensures WorldOK(s.world) && ThreadOK(s.world, s.threads[t])
  {
    hide WorldOK, ThreadOK;
  }

  lemma StepShadows(s: State, alone: State, a: AppId, t: nat, c: Choice)
    requires Shadows(s, alone, a) && Enabled(s, Step(t, c)) && AppOf(s.threads[t]) == a && NoForeignId(s.world, s.threads[t])
    ensures Enabled(alone, Step(t, c))
    ensures Shadows(Apply(s, Step(t, c)), Apply(alone, Step(t, c)), a)
  {
    hide Inv, ViewOf, OnlyApp, Accepts, Unblocked, AppOf, NoForeignId, Perform, Erased, Ids;
    var l := Step(t, c);
    InView(s, alone, a, t);
    FreshWithin(s.world, alone.world, c);
    hide Fresh;
    assert AppOf(alone.threads[t]) == a by { AllOwn(alone, a, t); }
    NothingForeign(alone, a, alone.threads[t]);
    TwoRuns(s, alone, t, c, a);
    InvStep(s, l);
    InvStep(alone, l);
    OnlyAppAfter(alone, a, t, c);
    IssuedAfter(s.world, s.threads[t], c);
    IssuedAfter(alone.world, alone.threads[t], c);
    var x, y := Perform(s.world, s.threads[t], c).thread, Perform(alone.world, alone.threads[t], c).thread;
    AppKept(s.world, s.threads[t], c);
    ErasedAfter(Apply(s, l), Apply(alone, l), a, t);
    CredentialsErased(x, y);
    SameIds(c, x, y);
  }

  lemma AllOwn(alone: State, a: AppId, t: nat)
    requires OnlyApp(alone, a) && t in alone.threads
    ensures AppOf(alone.threads[t]) == a
  {
  }

  lemma ErasedAfter(s: State, alone: State, a: AppId, t: nat)
    requires ViewOf(s, a) == ViewOf(alone, a) && t in s.threads && t in alone.threads && AppOf(s.threads[t]) == a
    ensures Erased(s.threads[t]) == Erased(alone.threads[t])
  {
    hide Restrict, AppOf, Erased;
    assert t in ViewOf(s, a).threads;
    assert t in ViewOf(alone, a).threads;
  }

  /** A new thread for request t, the tables unchanged. */
  lemma ViewWith(s: State, alone: State, a: AppId, t: nat, x: Thread, y: Thread)
    requires ViewOf(alone, a) == ViewOf(s, a) && AppOf(x) == a && AppOf(y) == a && Erased(x) == Erased(y)
    ensures ViewOf(alone.(threads := alone.threads[t := y]), a) == ViewOf(s.(threads := s.threads[t := x]), a)
  {
    hide Restrict, Erased, AppOf;
    var v, w := ViewOf(alone, a).threads, ViewOf(s, a).threads;
    var v', w' := ViewOf(alone.(threads := alone.threads[t := y]), a).threads, ViewOf(s.(threads := s.threads[t := x]), a).threads;
    forall u ensures (u in v' <==> u in w') && (u in v' ==> v'[u] == w'[u]) {
      assert u in v <==> u in w;
      assert u in v ==> v[u] == w[u];
    }
  }

  lemma AbortedErased(x: Thread, y: Thread)
    requires Erased(x) == Erased(y) && !Finished(x)
    ensures !Finished(y) && Erased(Aborted(x)) == Erased(Aborted(y)) && AppOf(Aborted(x)) == AppOf(x) && AppOf(Aborted(y)) == AppOf(y)
  {
    hide Aborted, AppOf, Erased, Finished;
    ErasedKind(x, y);
    AbortedApp(x);
    AbortedApp(y);
    if x != y { AbortedTx(x, y); }
  }

  lemma AbortedApp(x: Thread)
    ensures AppOf(Aborted(x)) == AppOf(x)
  {
  }

  lemma AbortedTx(x: Thread, y: Thread)
    requires Erased(x) == Erased(y) && ((x.TxNumber? && y.TxNumber?) || (x.TxInsertPayment? && y.TxInsertPayment?))
    ensures !Finished(y) && Aborted(x) == Aborted(y)
  {
  }
  lemma StartShadows(s: State, alone: State, a: AppId, t: nat, th: Thread)
    requires Shadows(s, alone, a) && Enabled(s, Start(t, th)) && AppOf(th) == a
    ensures Enabled(alone, Start(t, th)) && Shadows(Apply(s, Start(t, th)), Apply(alone, Start(t, th)), a)
  {
    hide Inv, ViewOf, AppOf;
    InView(s, alone, a, t);
    ViewWith(s, alone, a, t, th, th);
    InvStep(s, Start(t, th));
    InvStep(alone, Start(t, th));
  }

  lemma DieShadows(s: State, alone: State, a: AppId, t: nat)
    requires Shadows(s, alone, a) && Enabled(s, Die(t)) && AppOf(s.threads[t]) == a
    ensures Enabled(alone, Die(t)) && Shadows(Apply(s, Die(t)), Apply(alone, Die(t)), a)
  {
    hide Inv, ViewOf, AppOf, Aborted, Finished;
    InView(s, alone, a, t);
    AbortedErased(s.threads[t], alone.threads[t]);
    ViewWith(s, alone, a, t, Aborted(s.threads[t]), Aborted(alone.threads[t]));
    InvStep(s, Die(t));
    InvStep(alone, Die(t));
  }

  /** Another application's step, arrival or death is invisible. */
  lemma OthersShadow(s: State, alone: State, a: AppId, l: Label)
    requires Shadows(s, alone, a) && Enabled(s, l) && !OwnLabel(s, l, a)
    ensures Shadows(Apply(s, l), alone, a)
  {
    hide Inv, ViewOf, OnlyApp, AppOf, Accepts, Fresh, Unblocked, Aborted, Finished;
    InvStep(s, l);
    match l
    case Step(t, c) =>
      NoInterference(s, t, c, a);
      IssuedAfter(s.world, s.threads[t], c);
    case Start(t, th) => ViewWithout(s, a, t, th);
    case Die(t) =>
      AbortedErased(s.threads[t], s.threads[t]);
      ViewWithout(s, a, t, Aborted(s.threads[t]));
  }

  lemma ViewWithout(s: State, a: AppId, t: nat, x: Thread)
    requires AppOf(x) != a && (t in s.threads ==> AppOf(s.threads[t]) != a)
    ensures ViewOf(s.(threads := s.threads[t := x]), a) == ViewOf(s, a)
  {
    hide Restrict, Erased, AppOf;
  }

  lemma OwnShadows(s: State, alone: State, a: AppId, l: Label)
    requires Shadows(s, alone, a) && Enabled(s, l) && OwnLabel(s, l, a)
    requires l.Step? ==> NoForeignId(s.world, s.threads[l.t])
    ensures Enabled(alone, l) && Shadows(Apply(s, l), Apply(alone, l), a)
  {
    hide Shadows, NoForeignId, AppOf, Enabled, Apply;
    match l
    case Step(t, c) => StepShadows(s, alone, a, t, c);
    case Start(t, th) => StartShadows(s, alone, a, t, th);
    case Die(t) => DieShadows(s, alone, a, t);
  }

  lemma OpeningShadows(a: AppId)
    ensures Shadows(INIT, INIT, a)
  {
    InvInit();
    hide Inv;
  }

  // ---- whole runs ----

  /**
   * For every run there is a run with the application's own steps alone, in which its rows and its requests, with
   * everything they answer, are the same: nothing other applications do can be seen.
   */
  lemma {:induction false} AloneIsTheSame(r: Execution, n: nat, a: AppId) returns (alone: Execution)
    requires ValidRun(r) && n <= |r.labels| && NoForeignIds(r, a)
    ensures ValidRun(alone) && alone.labels == OwnLabels(r, n, a)
    ensures Shadows(r.states[n], alone.states[|alone.labels|], a)
    decreases n
  {
    hide Shadows, NoForeignId, AppOf, Enabled, Apply, OwnLabel;
    if n == 0 {
      alone := Execution([INIT], []);
      OpeningShadows(a);
    } else {
      alone := AloneIsTheSame(r, n - 1, a);
      var s, l, last := r.states[n - 1], r.labels[n - 1], alone.states[|alone.labels|];
      if OwnLabel(s, l, a) {
        OwnShadows(s, last, a, l);
        alone := Execution(alone.states + [Apply(last, l)], alone.labels + [l]);
      } else {
        OthersShadow(s, last, a, l);
      }
    }
  }
}
