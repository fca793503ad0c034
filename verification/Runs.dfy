/** The invariant over whole runs. */
module Runs {
  import opened Basics
  import opened Tables
  import opened Protocol
  import opened Invariant
  import opened WorldSteps
  import opened Stability
  import opened Steps

  lemma IssuedClaim(w: World, th: Thread)
    requires WorldOK(w) && ThreadOK(w, th) && ClaimsOf(th).payment.Some?
    ensures ClaimsOf(th).payment.value in w.issued
  {
    hide WorldOK;
    var p := ClaimsOf(th).payment.value;
    if p in w.db.payments { AtPayment(w, p); }
  }

  /** A step's claims do not meet what any other request holds. */
  lemma StepApart(s: State, t: nat, c: Choice, u: nat)
    requires Inv(s) && Enabled(s, Step(t, c)) && u in s.threads && u != t
    ensures Apart(ClaimsOf(s.threads[u]), StepClaims(s.threads[t], c))
  {
    hide WorldOK, ThreadOK, ClaimsOf;
    var a, b := s.threads[t], s.threads[u];
    assert Apart(ClaimsOf(b), ClaimsOf(a));
    if ClaimsOf(b).payment.Some? { IssuedClaim(s.world, b); }
    StepClaimsAre(a, c);
  }

  /** A step's claims are the thread's own, plus what it acquires or draws. */
  lemma StepClaimsAre(th: Thread, c: Choice)
    requires Accepts(th, c)
    ensures var x, y := StepClaims(th, c), ClaimsOf(th);
      && (x.payment == y.payment || (c.Atomic? && x.payment == Some(c.p)) || (c.DrawPayment? && x.payment == Some(c.p)))
      && (x.slot == y.slot || (th.OpenLocal? && x.slot == Some(th.req.slot)))
      && (x.key == y.key || (((th.OpenLocal? && c.Atomic?) || th.TxInsertKey?) && x.key == Some(th.req.Key())))
  {
  }

  lemma ApartWithin(a: Claims, b: Claims, c: Claims)
    requires Within(a, b) && Apart(c, b)
    ensures Apart(a, c) && Apart(c, a)
  {
  }

  lemma StepInv(s: State, t: nat, c: Choice)
    requires Inv(s) && Enabled(s, Step(t, c))
    ensures Inv(Apply(s, Step(t, c)))
    ensures Touches(s.world, Apply(s, Step(t, c)).world, StepClaims(s.threads[t], c))
  {
    hide WorldOK, ThreadOK, ClaimsOf, StepClaims, Touches, Perform, Accepts, Fresh, Unblocked;
    var s' := Apply(s, Step(t, c));
    var x := StepClaims(s.threads[t], c);
    ThreadStep(s.world, s.threads[t], c);
    forall u | u in s'.threads ensures ThreadOK(s'.world, s'.threads[u]) {
      if u != t {
        StepApart(s, t, c, u);
        Stable(s.world, s'.world, s.threads[u], x);
      }
    }
    forall u, v | u in s'.threads && v in s'.threads && u != v
      ensures Apart(ClaimsOf(s'.threads[u]), ClaimsOf(s'.threads[v]))
    {
      if u == t {
        StepApart(s, t, c, v);
        ApartWithin(ClaimsOf(s'.threads[t]), x, ClaimsOf(s.threads[v]));
      } else if v == t {
        StepApart(s, t, c, u);
        ApartWithin(ClaimsOf(s'.threads[t]), x, ClaimsOf(s.threads[u]));
      }
    }
  }

  lemma NewThreadOK(w: World, th: Thread)
    requires th.ReadKey? || th.GetRead?
    ensures ThreadOK(w, th) && ClaimsOf(th) == NOTHING
  {
  }

  lemma AbortedOK(w: World, th: Thread)
    requires ThreadOK(w, th)
    ensures ThreadOK(w, Aborted(th)) && ClaimsOf(Aborted(th)) == NOTHING
  {
    hide ThreadOK, ClaimsOf;
    if CreateThread(th) {
      FailOK(w, th.req, Lost(th));
    } else if th.GetDone? {
      DoneClaimsNothing(th);
    } else {
      NothingFoundOK(w, th.app, th.p);
    }
  }

  lemma FailOK(w: World, req: CreateRequest, f: Failure)
    requires !Impossible(f)
    ensures ThreadOK(w, Fail(req, f)) && ClaimsOf(Fail(req, f)) == NOTHING
  {
  }

  lemma DoneClaimsNothing(th: Thread)
    requires th.GetDone?
    ensures ClaimsOf(th) == NOTHING
  {
  }

  lemma NothingFoundOK(w: World, app: AppId, p: Uuid)
    ensures ThreadOK(w, GetDone(app, p, None)) && ClaimsOf(GetDone(app, p, None)) == NOTHING
  {
  }
  /** Every step of the system keeps the invariant. */
  lemma InvStep(s: State, l: Label)
    requires Inv(s) && Enabled(s, l)
    ensures Inv(Apply(s, l))
  {
    hide WorldOK, ThreadOK, ClaimsOf;
    match l
    case Start(t, th) => NewThreadOK(s.world, th);
    case Die(t) => AbortedOK(s.world, s.threads[t]);
    case Step(t, c) => StepInv(s, t, c);
  }

  lemma InvInit()
    ensures Inv(INIT)
  {
  }

  /** The invariant holds in every state of every run. */
  lemma {:induction false} RunInv(r: Execution, i: nat)
    requires ValidRun(r) && i < |r.states|
    ensures Inv(r.states[i])
  {
    hide Inv;
    if i == 0 {
      InvInit();
    } else {
      RunInv(r, i - 1);
      InvStep(r.states[i - 1], r.labels[i - 1]);
    }
  }

  /** What a step of the system does to the tables. */
  lemma StepTouches(s: State, l: Label)
    requires Inv(s) && Enabled(s, l)
    ensures l.Step? ==> Touches(s.world, Apply(s, l).world, StepClaims(s.threads[l.t], l.choice))
    ensures !l.Step? ==> Apply(s, l).world == s.world
  {
    hide WorldOK, ThreadOK, ClaimsOf, Touches, StepClaims, Perform;
    if l.Step? { StepInv(s, l.t, l.choice); }
  }
}
