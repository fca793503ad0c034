/**
 * Attach calls statement by statement (internal/applications/service.go:312-386): each call is a transaction whose
 * row locks and unique-index waits hold until it commits, but whose choice of flag rests on a snapshot read earlier.
 */
module AttachRuns {
  import opened Tables
  import opened ProviderLinks

  datatype Attach =
    | Listing(l: Link, asked: bool)                // about to read the application's links
    | Clearing(l: Link, make: bool)                // the flag is chosen; about to clear the default, if it makes one
    | Upserting(l: Link, make: bool, own: Links)   // about to write its own link; `own` is what it wrote so far
    | Committing(l: Link, make: bool, own: Links)
    | Finished(l: Link, ok: bool)

  /** Rows written and not yet visible to others: they are locked. */
  function Own(th: Attach): Links {
    if th.Upserting? || th.Committing? then th.own else map[]
  }

  datatype State = State(links: Links, calls: map<nat, Attach>)

  datatype Step = Arrive(t: nat, l: Link, asked: bool) | Die(t: nat) | Next(t: nat)

  predicate DefaultsOf(links: Links, app: AppId, l: Link) {
    IsDefault(links, l) && l.app == app
  }

  /** No other open transaction holds a row this statement writes, or a default entry of the same application. */
  predicate Unblocked(s: State, t: nat)
    requires t in s.calls
  {
    var th := s.calls[t];
    forall u :: u in s.calls && u != t ==>
      && (th.Clearing? && th.make ==> forall x :: x in Own(s.calls[u]) ==> !DefaultsOf(s.links, th.l.app, x))
      && (th.Upserting? ==> th.l !in Own(s.calls[u]))
      && (th.Upserting? && th.make ==> !(s.calls[u].Committing? && s.calls[u].make && s.calls[u].l.app == th.l.app))
  }

  predicate Enabled(s: State, e: Step) {
    match e
    case Arrive(t, _, _) => t !in s.calls
    case Die(t) => t in s.calls && !s.calls[t].Finished?
    case Next(t) => t in s.calls && !s.calls[t].Finished? && Unblocked(s, t)
  }

  /** Another row of the application is already the default: the partial unique index refuses. */
  predicate IndexRefuses(links: Links, th: Attach)
    requires th.Upserting?
  {
    th.make && exists x :: x in links && DefaultsOf(links, th.l.app, x) && x != th.l && x !in th.own
  }

  function After(links: Links, th: Attach): (Links, Attach)
    requires !th.Finished?
  {
    match th
    case Listing(l, asked) => (links, Clearing(l, Choose(links, l, asked)))
    case Clearing(l, make) =>
      (links, Upserting(l, make, if make then map x | x in links && DefaultsOf(links, l.app, x) :: false else map[]))
    case Upserting(l, make, own) =>
      (links, if IndexRefuses(links, th) then Finished(l, false) else Committing(l, make, own[l := make]))
    case Committing(l, make, own) => (links + own, Finished(l, true))
  }

  function Apply(s: State, e: Step): State
    requires Enabled(s, e)
  {
    match e
    case Arrive(t, l, asked) => s.(calls := s.calls[t := Listing(l, asked)])
    case Die(t) => s.(calls := s.calls[t := Finished(s.calls[t].l, false)])
    case Next(t) =>
      var (links, th) := After(s.links, s.calls[t]);
      State(links, s.calls[t := th])
  }

  const INIT: State := State(map[], map[])

  datatype Run = Run(states: seq<State>, steps: seq<Step>)

  predicate ValidRun(r: Run) {
    && |r.states| == |r.steps| + 1 && r.states[0] == INIT
    && forall i :: 0 <= i < |r.steps| ==> Enabled(r.states[i], r.steps[i]) && r.states[i + 1] == Apply(r.states[i], r.steps[i])
  }

  // ---- what holds between any two statements ----

  ghost predicate CallOK(links: Links, th: Attach) {
    match th
    case Listing(_, _) => true
    case Clearing(l, make) => make || Attached(links, l.app)
    case Upserting(l, make, own) =>
      && (make || Attached(links, l.app))
      && (forall x :: x in own ==> make && !own[x] && x in links && x.app == l.app)
    case Committing(l, make, own) =>
      && (make || Attached(links, l.app))
      && l in own && own[l] == make
      && (forall x :: x in own && x != l ==> make && !own[x] && x in links && x.app == l.app)
      && (make ==> forall x :: DefaultsOf(links, l.app, x) && x != l ==> x in own)
    case Finished(_, _) => true
  }

  ghost predicate Compatible(a: Attach, b: Attach) {
    && (forall x :: x in Own(a) ==> x !in Own(b))
    && !(a.Committing? && b.Committing? && a.make && b.make && a.l.app == b.l.app)
  }

  ghost predicate Inv(s: State) {
    && (forall app :: AtMostOne(s.links, app))
    && (forall t :: t in s.calls ==> CallOK(s.links, s.calls[t]))
    && (forall t, u :: t in s.calls && u in s.calls && t != u ==> Compatible(s.calls[t], s.calls[u]))
  }

  lemma CommitKeepsAtMostOne(links: Links, th: Attach, app: AppId)
    requires th.Committing? && CallOK(links, th) && AtMostOne(links, app)
    ensures AtMostOne(links + th.own, app)
  {
    forall x ensures IsDefault(links + th.own, x) && x != th.l ==> IsDefault(links, x) && x !in th.own {
    }
  }

  /** A commit changes only its own rows, which no other call relies on. */
  lemma CommitKeepsOthers(links: Links, th: Attach, other: Attach)
    requires th.Committing? && CallOK(links, th) && CallOK(links, other) && Compatible(th, other)
    ensures CallOK(links + th.own, other)
  {
    AttachedStays(links, th.own, other.l.app);
    if other.Committing? && other.make {
      forall x | DefaultsOf(links + th.own, other.l.app, x) && x != other.l ensures x in other.own {
        assert x !in th.own ==> DefaultsOf(links, other.l.app, x);
      }
    }
  }

  lemma AttachedStays(links: Links, own: Links, app: AppId)
    ensures Attached(links, app) ==> Attached(links + own, app)
  {
    if Attached(links, app) {
      var l :| l in links && l.app == app;
      assert l in links + own;
    }
  }

  lemma OwnStep(s: State, t: nat)
    requires Inv(s) && Enabled(s, Next(t))
    ensures var (links, th) := After(s.links, s.calls[t]); CallOK(links, th)
  {
    hide Inv;
    assert CallOK(s.links, s.calls[t]) by { CallIsOK(s, t); }
    if s.calls[t].Listing? { ChosenOrAttached(s.links, s.calls[t].l, s.calls[t].asked); }
  }

  lemma CallIsOK(s: State, t: nat)
    requires Inv(s) && t in s.calls
    ensures CallOK(s.links, s.calls[t])
  {
  }

  lemma ChosenOrAttached(links: Links, l: Link, asked: bool)
    ensures Choose(links, l, asked) || Attached(links, l.app)
  {
  }

  lemma OwnCompatible(s: State, t: nat, u: nat)
    requires Inv(s) && Enabled(s, Next(t)) && u in s.calls && u != t
    ensures var th := After(s.links, s.calls[t]).1; Compatible(th, s.calls[u]) && Compatible(s.calls[u], th)
  {
    assert Compatible(s.calls[t], s.calls[u]) && Compatible(s.calls[u], s.calls[t]);
    hide Inv, CallOK, AtMostOne;
  }

  lemma OthersOK(s: State, t: nat, u: nat)
    requires Inv(s) && Enabled(s, Next(t)) && u in s.calls && u != t
    ensures CallOK(After(s.links, s.calls[t]).0, s.calls[u])
  {
    hide CallOK;
    assert Compatible(s.calls[t], s.calls[u]);
    if s.calls[t].Committing? { CommitKeepsOthers(s.links, s.calls[t], s.calls[u]); }
  }

  lemma NextKeeps(s: State, t: nat)
    requires Inv(s) && Enabled(s, Next(t))
    ensures Inv(Apply(s, Next(t)))
  {
    hide After, CallOK, Compatible, AtMostOne;
    var s' := Apply(s, Next(t));
    OwnStep(s, t);
    forall app ensures AtMostOne(s'.links, app) { NextAtMostOne(s, t, app); }
    forall u | u in s.calls && u != t ensures CallOK(s'.links, s.calls[u]) { OthersOK(s, t, u); }
    forall u | u in s.calls && u != t ensures Compatible(s'.calls[t], s.calls[u]) && Compatible(s.calls[u], s'.calls[t]) {
      OwnCompatible(s, t, u);
    }
  }

  lemma NextAtMostOne(s: State, t: nat, app: AppId)
    requires Inv(s) && Enabled(s, Next(t))
    ensures AtMostOne(After(s.links, s.calls[t]).0, app)
  {
    hide AtMostOne;
    if s.calls[t].Committing? { CommitKeepsAtMostOne(s.links, s.calls[t], app); }
  }

  lemma StepKeeps(s: State, e: Step)
    requires Inv(s) && Enabled(s, e)
    ensures Inv(Apply(s, e))
  {
    hide AtMostOne;
    if e.Next? { NextKeeps(s, e.t); }
  }

  /** At most one default per application, in every run of any number of interleaved attach calls. */
  lemma {:induction false} AtMostOneDefault(r: Run, i: nat)
    requires ValidRun(r) && i < |r.states|
    ensures Inv(r.states[i])
  {
    hide Inv, Enabled, Apply;
    if i == 0 {
      EmptyInv();
    } else {
      AtMostOneDefault(r, i - 1);
      StepKeeps(r.states[i - 1], r.steps[i - 1]);
    }
  }

  lemma EmptyInv()
    ensures Inv(INIT)
  {
  }

  // ---- exactly when a default is lost ----

  /** A commit of a stale choice: the link has become the default since the call chose not to make it one. */
  predicate StaleCommit(s: State, e: Step) {
    e.Next? && e.t in s.calls && s.calls[e.t].Committing? && !s.calls[e.t].make && IsDefault(s.links, s.calls[e.t].l)
  }

  ghost predicate Defaulted(links: Links) {
    forall app :: Attached(links, app) ==> HasDefault(links, app)
  }

  lemma CommitKeepsDefault(links: Links, th: Attach, app: AppId)
    requires th.Committing? && CallOK(links, th) && Attached(links + th.own, app)
    requires Attached(links, app) ==> HasDefault(links, app)
    requires th.make || !IsDefault(links, th.l)
    ensures HasDefault(links + th.own, app)
  {
    var after := links + th.own;
    if th.make && app == th.l.app {
      assert IsDefault(after, th.l);
    } else {
      AttachedBefore(links, th, app);
      var d :| IsDefault(links, d) && d.app == app;
      KeptDefault(links, th, d);
    }
  }

  lemma AttachedBefore(links: Links, th: Attach, app: AppId)
    requires th.Committing? && CallOK(links, th) && Attached(links + th.own, app) && !(th.make && app == th.l.app)
    ensures Attached(links, app)
  {
    var x :| x in links + th.own && x.app == app;
    if x !in links { assert x == th.l; }
  }

  lemma KeptDefault(links: Links, th: Attach, d: Link)
    requires th.Committing? && CallOK(links, th) && IsDefault(links, d) && (th.make || !IsDefault(links, th.l))
    requires !(th.make && d.app == th.l.app)
    ensures IsDefault(links + th.own, d)
  {
    assert d !in th.own;
  }

  lemma CommitLosesDefault(links: Links, th: Attach)
    requires th.Committing? && CallOK(links, th) && AtMostOne(links, th.l.app) && !th.make && IsDefault(links, th.l)
    ensures Attached(links + th.own, th.l.app) && !HasDefault(links + th.own, th.l.app)
  {
    assert th.l in links + th.own;
    forall d ensures IsDefault(links + th.own, d) ==> IsDefault(links, d) && d != th.l {
    }
  }

  lemma StepDefaulted(s: State, e: Step)
    requires Inv(s) && Enabled(s, e) && Defaulted(s.links)
    ensures Defaulted(Apply(s, e).links) <==> !StaleCommit(s, e)
  {
    hide CallOK, AtMostOne, Compatible, Unblocked;
    if e.Next? && s.calls[e.t].Committing? {
      var th := s.calls[e.t];
      if StaleCommit(s, e) {
        CommitLosesDefault(s.links, th);
      } else {
        forall app | Attached(s.links + th.own, app) ensures HasDefault(s.links + th.own, app) {
          CommitKeepsDefault(s.links, th, app);
        }
      }
    }
  }

  lemma {:induction false} DefaultedSoFar(r: Run, i: nat)
    requires ValidRun(r) && i < |r.states| && forall k :: 0 <= k < i ==> !StaleCommit(r.states[k], r.steps[k])
    ensures Defaulted(r.states[i].links)
  {
    hide Inv, Defaulted, Enabled, Apply, StaleCommit;
    if i == 0 {
      EmptyIsDefaulted();
      NothingMissing();
    } else {
      DefaultedSoFar(r, i - 1);
      AtMostOneDefault(r, i - 1);
      StepDefaulted(r.states[i - 1], r.steps[i - 1]);
    }
  }

  lemma NothingMissing()
    ensures Defaulted(map[])
  {
  }

  /** Applications with a provider have exactly one default throughout a run exactly when no stale choice is committed. */
  lemma OneDefaultExactly(r: Run)
    requires ValidRun(r)
    ensures (forall i :: 0 <= i < |r.states| ==> OneDefaultEach(r.states[i].links))
            <==> (forall i :: 0 <= i < |r.steps| ==> !StaleCommit(r.states[i], r.steps[i]))
  {
    hide Inv, Defaulted, Enabled, Apply, StaleCommit, OneDefaultEach;
    if forall i :: 0 <= i < |r.steps| ==> !StaleCommit(r.states[i], r.steps[i]) {
      forall i | 0 <= i < |r.states| ensures OneDefaultEach(r.states[i].links) {
        DefaultedSoFar(r, i);
        AtMostOneDefault(r, i);
        BothMeanOne(r.states[i]);
      }
    } else {
      var i :| 0 <= i < |r.steps| && StaleCommit(r.states[i], r.steps[i]);
      AtMostOneDefault(r, i);
      AtMostOneDefault(r, i + 1);
      BothMeanOne(r.states[i]);
      BothMeanOne(r.states[i + 1]);
      if Defaulted(r.states[i].links) { StepDefaulted(r.states[i], r.steps[i]); }
    }
  }

  lemma BothMeanOne(s: State)
    requires Inv(s)
    ensures OneDefaultEach(s.links) <==> Defaulted(s.links)
  {
    hide AtMostOne, CallOK, Compatible;
  }

  // ---- an uninterrupted call is the atomic one ----

  function Extend(r: Run, e: Step): Run
    requires ValidRun(r) && Enabled(r.states[|r.steps|], e)
  {
    Run(r.states + [Apply(r.states[|r.steps|], e)], r.steps + [e])
  }

  function Last(r: Run): State
    requires ValidRun(r)
  {
    r.states[|r.steps|]
  }

  lemma ExtendValid(r: Run, e: Step)
    requires ValidRun(r) && Enabled(Last(r), e)
    ensures ValidRun(Extend(r, e)) && Last(Extend(r, e)) == Apply(Last(r), e)
  {
    hide Enabled, Apply;
  }

  /** Nobody else is in the middle of its writes. */
  ghost predicate Quiet(s: State, t: nat) {
    forall u :: u in s.calls && u != t ==> !s.calls[u].Upserting? && !s.calls[u].Committing?
  }

  lemma QuietStep(r: Run, t: nat) returns (r': Run)
    requires ValidRun(r) && t in Last(r).calls && !Last(r).calls[t].Finished? && Quiet(Last(r), t)
    ensures ValidRun(r')
    ensures var out := After(Last(r).links, Last(r).calls[t]);
            Last(r') == State(out.0, Last(r).calls[t := out.1])
    ensures Quiet(Last(r'), t)
  {
    hide After, ValidRun;
    QuietUnblocked(Last(r), t);
    ExtendValid(r, Next(t));
    r' := Extend(r, Next(t));
  }

  lemma QuietUnblocked(s: State, t: nat)
    requires t in s.calls && Quiet(s, t)
    ensures Unblocked(s, t)
  {
  }

  /** The four statements in a row write what the uninterrupted call writes. */
  lemma StatementsCompose(links: Links, l: Link, asked: bool)
    ensures var (links1, th1) := After(links, Listing(l, asked));
            var (links2, th2) := After(links1, th1);
            var (links3, th3) := After(links2, th2);
            th3.Committing? && After(links3, th3) == (AttachLink(links, l, asked), Finished(l, true))
  {
    hide Choose;
    var make := Choose(links, l, asked);
    var own: Links := if make then map x | x in links && DefaultsOf(links, l.app, x) :: false else map[];
    assert !IndexRefuses(links, Upserting(l, make, own));
    assert links + own[l := make] == AttachLink(links, l, asked);
  }

  lemma ArriveAlone(r: Run, t: nat, l: Link, asked: bool) returns (r': Run)
    requires ValidRun(r) && t !in Last(r).calls
    ensures ValidRun(r') && Last(r') == Last(r).(calls := Last(r).calls[t := Listing(l, asked)])
  {
    hide ValidRun;
    ExtendValid(r, Arrive(t, l, asked));
    r' := Extend(r, Arrive(t, l, asked));
  }

  /** A call that runs while nobody writes is the atomic call. */
  lemma RunAlone(r: Run, t: nat, l: Link, asked: bool) returns (r': Run)
    requires ValidRun(r) && t !in Last(r).calls && Quiet(Last(r), t)
    ensures ValidRun(r')
    ensures Last(r') == State(AttachLink(Last(r).links, l, asked), Last(r).calls[t := Finished(l, true)])
  {
    hide ValidRun, After, AttachLink;
    var r0 := ArriveAlone(r, t, l, asked);
    StatementsCompose(Last(r).links, l, asked);
    ThreeWrites(Last(r).links, l, asked);
    var r1 := QuietStep(r0, t);
    var r2 := QuietStep(r1, t);
    var r3 := QuietStep(r2, t);
    r' := QuietStep(r3, t);
    assert Last(r').calls == Last(r).calls[t := Finished(l, true)];
  }

  lemma ThreeWrites(links: Links, l: Link, asked: bool)
    ensures var (links1, th1) := After(links, Listing(l, asked));
            var (links2, th2) := After(links1, th1);
            links1 == links && th1.Clearing? && links2 == links && th2.Upserting?
  {
  }

  /**
   * A run that leaves an application with two providers and no default: a call attaches the second provider again
   * without asking for the default, and between its read and its write another call makes that provider the default.
   */
  lemma DefaultCanBeLost() returns (r: Run)
    ensures ValidRun(r)
    ensures var links := Last(r).links;
            |links| == 2 && (forall l :: l in links ==> l.app == 0) && !HasDefault(links, 0) && !OneDefaultEach(links)
    ensures forall t :: t in Last(r).calls ==> Last(r).calls[t].Finished? && Last(r).calls[t].ok
  {
    hide ValidRun, Last, AttachLink, After, OneDefaultEach, HasDefault;
    r := Run([INIT], []);
    StartsValid();
    ExampleCalls();
    r := RunAlone(r, 0, A, false);
    r := RunAlone(r, 1, B, false);
    r := ArriveAlone(r, 2, B, false);
    r := QuietStep(r, 2);
    r := RunAlone(r, 3, B, true);
    r := QuietStep(r, 2);
    r := QuietStep(r, 2);
    r := QuietStep(r, 2);
    NoneLeft();
    assert Last(r).links == map[A := false, B := false];
  }

  const A: Link := Link(0, 1)
  const B: Link := Link(0, 2)

  lemma ExampleCalls()
    ensures AttachLink(map[], A, false) == map[A := true]
    ensures AttachLink(map[A := true], B, false) == map[A := true, B := false]
    ensures After(map[A := true, B := false], Listing(B, false)) == (map[A := true, B := false], Clearing(B, false))
    ensures AttachLink(map[A := true, B := false], B, true) == map[A := false, B := true]
    ensures After(map[A := false, B := true], Clearing(B, false)) == (map[A := false, B := true], Upserting(B, false, map[]))
    ensures After(map[A := false, B := true], Upserting(B, false, map[]))
            == (map[A := false, B := true], Committing(B, false, map[B := false]))
    ensures After(map[A := false, B := true], Committing(B, false, map[B := false]))
            == (map[A := false, B := false], Finished(B, true))
  {
    assert A in map[A := true] && A in map[A := true, B := false];
    assert IsDefault(map[A := true], A);
    assert map[A := false, B := true] + map[B := false] == map[A := false, B := false];
  }

  lemma NoneLeft()
    ensures var links := map[A := false, B := false];
            |links| == 2 && !HasDefault(links, 0) && !OneDefaultEach(links)
  {
    var links := map[A := false, B := false];
    assert A in links && A.app == 0;
    assert Attached(links, 0);
    assert links.Keys == {A, B} && A != B;
    assert |links| == |links.Keys| == 2;
  }

  lemma StartsValid()
    ensures ValidRun(Run([INIT], [])) && Last(Run([INIT], [])) == INIT
  {
  }
}
