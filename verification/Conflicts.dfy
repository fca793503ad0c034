/** Reused idempotency keys over whole runs: who bound a key, and who is told of a conflict. */
module Conflicts {
  import opened ProviderClient
  import opened Tables
  import opened Protocol
  import opened Effects
  import opened Invariant
  import opened Runs
  import opened Idempotency
  import opened Fingerprint

  /** The key's record carries the request's fingerprint. */
  ghost predicate BoundTo(w: World, req: CreateRequest) {
    req.Key() in w.db.requests && w.db.requests[req.Key()].hash == req.hash
  }

  /** A create request that arrived in the run. */
  ghost predicate Arrived(s: State, t: nat) {
    t in s.threads && CreateThread(s.threads[t])
  }

  lemma RequestStays(s: State, l: Label, t: nat)
    requires Enabled(s, l) && Arrived(s, t)
    ensures Arrived(Apply(s, l), t) && Apply(s, l).threads[t].req == s.threads[t].req
  {
    hide Perform, Accepts, Fresh, Unblocked;
    if l.Step? && l.t == t { StepKeepsRequest(s.world, s.threads[t], l.choice); }
  }

  /** Keys are inserted by the request they carry, with its fingerprint. */
  lemma NewKey(w: World, th: Thread, c: Choice, k: ClientKey)
    requires Accepts(th, c) && k !in w.db.requests && k in Perform(w, th, c).world.db.requests
    ensures CreateThread(th) && th.req.Key() == k && BoundTo(Perform(w, th, c).world, th.req)
  {
    hide Perform, Accepts;
    StepWrites(w, th, c);
    if th.OpenLocal? || th.TxCommit? {
      hide OrderHasSucceededPayment, InsertViolates, NextAttemptNumber, NewPayment, NewOperation;
    } else {
      hide WorldAfter;
      KeysKept(w, th, c);
    }
  }

  lemma KeysKept(w: World, th: Thread, c: Choice)
    requires Accepts(th, c) && !th.OpenLocal? && !th.TxCommit?
    ensures WorldAfter(w, th, c).db.requests == w.db.requests
  {
    hide RequestOf, GetResult, CreateLocal, InsertLocal, ProviderIdTaken;
  }

  ghost predicate BoundBy(s: State, k: ClientKey, t: nat) {
    Arrived(s, t) && s.threads[t].req.Key() == k && BoundTo(s.world, s.threads[t].req)
  }

  lemma BoundByStays(s: State, l: Label, k: ClientKey, t: nat)
    requires Inv(s) && Enabled(s, l) && BoundBy(s, k, t)
    ensures BoundBy(Apply(s, l), k, t)
  {
    hide Inv, Enabled, Apply;
    KeyStep(s, l, k);
    RequestStays(s, l, t);
  }

  lemma NewlyBound(s: State, l: Label, k: ClientKey)
    requires Enabled(s, l) && k !in s.world.db.requests && k in Apply(s, l).world.db.requests
    ensures l.Step? && BoundBy(Apply(s, l), k, l.t)
  {
    hide Perform, Accepts, Fresh, Unblocked;
    if l.Step? {
      NewKey(s.world, s.threads[l.t], l.choice, k);
      StepKeepsRequest(s.world, s.threads[l.t], l.choice);
    }
  }

  /** Every bound key was bound by a request of the run, to its own fingerprint. */
  lemma {:induction false} BoundByRequest(r: Execution, i: nat, k: ClientKey)
    requires ValidRun(r) && i < |r.states| && k in r.states[i].world.db.requests
    ensures exists t :: BoundBy(r.states[i], k, t)
  {
    hide Inv, Enabled, Apply, BoundBy;
    if i > 0 {
      var s, l := r.states[i - 1], r.labels[i - 1];
      if k in s.world.db.requests {
        BoundByRequest(r, i - 1, k);
        var t :| BoundBy(s, k, t);
        RunInv(r, i - 1);
        BoundByStays(s, l, k, t);
      } else {
        NewlyBound(s, l, k);
      }
    }
  }

  predicate ToldOfConflict(th: Thread) {
    th.CreateDone? && th.response == Failed(IdempotencyConflict)
  }

  /** Only a key read that finds another fingerprint answers with a conflict. */
  lemma ConflictFrom(w: World, th: Thread, c: Choice)
    requires Accepts(th, c) && ToldOfConflict(Perform(w, th, c).thread)
    ensures Mismatch(w, th.req) && CreateThread(th)
  {
    hide Perform, Accepts, Follows;
    StepFollows(w, th, c);
    FlowToConflict(th, Perform(w, th, c).thread);
    ConflictRead(w, th, c);
  }

  lemma FlowToConflict(a: Thread, b: Thread)
    requires Follows(a, b) && ToldOfConflict(b)
    ensures a.ReadKey? || a.RaceReread?
  {
  }

  lemma ConflictRead(w: World, th: Thread, c: Choice)
    requires Accepts(th, c) && (th.ReadKey? || th.RaceReread?) && ToldOfConflict(Perform(w, th, c).thread)
    ensures Mismatch(w, th.req)
  {
    hide PerformTx, PerformCall, PerformSettle, PerformGet;
  }

  lemma ConflictStep(s: State, l: Label, t: nat)
    requires Inv(s) && Enabled(s, l) && t in Apply(s, l).threads && ToldOfConflict(Apply(s, l).threads[t])
    ensures t in s.threads && CreateThread(s.threads[t]) && Apply(s, l).threads[t].req == s.threads[t].req
    ensures ToldOfConflict(s.threads[t]) || Mismatch(s.world, s.threads[t].req)
  {
    hide Inv, Perform, Accepts, Fresh, Unblocked;
    if l.Step? && l.t == t {
      ConflictFrom(s.world, s.threads[t], l.choice);
      StepKeepsRequest(s.world, s.threads[t], l.choice);
    }
  }

  lemma {:induction false} ConflictMeansMismatch(r: Execution, i: nat, t: nat)
    requires ValidRun(r) && i < |r.states| && t in r.states[i].threads && ToldOfConflict(r.states[i].threads[t])
    ensures Mismatch(r.states[i].world, r.states[i].threads[t].req)
  {
    hide Inv, Enabled, Apply, ToldOfConflict;
    if i > 0 {
      var s, l := r.states[i - 1], r.labels[i - 1];
      RunInv(r, i - 1);
      ConflictStep(s, l, t);
      if ToldOfConflict(s.threads[t]) { ConflictMeansMismatch(r, i - 1, t); }
      KeyStep(s, l, s.threads[t].req.Key());
    }
  }

  /** Every create request carries the fingerprint of its own payload. */
  ghost predicate AllHashed(s: State, hash: string -> Hash) {
    forall t :: Arrived(s, t) ==> HashedBy(s.threads[t].req, hash)
  }

  /**
   * A request whose key is bound to a request with another payload changes no row from then on, gets no payment, and
   * is told of the conflict by its key read.
   */
  lemma OtherPayloadConflicts(r: Execution, i: nat, u: nat, j: nat, t: nat, hash: string -> Hash)
    requires ValidRun(r) && CollisionFree(hash) && i <= j < |r.states| && Arrived(r.states[i], u) && Arrived(r.states[j], t)
    requires BoundTo(r.states[i].world, r.states[i].threads[u].req)
    requires HashedBy(r.states[i].threads[u].req, hash) && HashedBy(r.states[j].threads[t].req, hash)
    requires r.states[j].threads[t].req.Key() == r.states[i].threads[u].req.Key()
    requires PayloadOf(r.states[j].threads[t].req) != PayloadOf(r.states[i].threads[u].req)
    ensures ShutOut(r.states[j], t)
  {
    hide ValidRun, HashedBy, PayloadOf, CollisionFree, ShutOut;
    SameFingerprint(hash, r.states[i].threads[u].req, r.states[j].threads[t].req);
    ReusedKeyConflicts(r, i, j, t);
  }

  /** Whoever is told of a conflict used a key that a request with another payload had bound. */
  lemma ConflictMeansOtherPayload(r: Execution, i: nat, t: nat, hash: string -> Hash)
    requires ValidRun(r) && CollisionFree(hash) && i < |r.states| && AllHashed(r.states[i], hash)
    requires Arrived(r.states[i], t) && ToldOfConflict(r.states[i].threads[t])
    ensures exists u :: BoundBy(r.states[i], r.states[i].threads[t].req.Key(), u)
                        && PayloadOf(r.states[i].threads[u].req) != PayloadOf(r.states[i].threads[t].req)
  {
    hide ValidRun, HashedBy, PayloadOf, CollisionFree;
    ConflictMeansMismatch(r, i, t);
    var req := r.states[i].threads[t].req;
    BoundByRequest(r, i, req.Key());
    var u :| BoundBy(r.states[i], req.Key(), u);
    SameFingerprint(hash, r.states[i].threads[u].req, req);
  }
}
