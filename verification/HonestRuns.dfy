/** What an honest provider adds to the core's runs: nothing foreign is ever seen, and when exactly an order is charged twice. */
module HonestRuns {
  import opened PaymentStates
  import opened Tables
  import opened Protocol
  import opened Invariant
  import opened Histories
  import opened Atomicity
  import opened Settlement
  import opened Isolation
  import opened Projection

  // ---- non-interference without a condition ----

  /** Beside an honest provider the index on provider ids answers the same on the application's own rows. */
  lemma NothingForeignHere(r: ShopRun, i: nat, t: nat)
    requires ValidShopRun(r) && i < |r.states| && t in r.states[i].core.threads
    ensures NoForeignId(r.states[i].core.world, r.states[i].core.threads[t])
  {
    hide Possible, After;
    if r.states[i].core.threads[t].PersistCreated? { HonestIdIsFree(r, i, t); }
  }

  /** The core's part of a shop's run is a run of the core, and no foreign id is met in it. */
  lemma {:induction false} CoreOfShop(r: ShopRun, n: nat, a: AppId) returns (e: Execution)
    requires ValidShopRun(r) && n < |r.states|
    ensures ValidRun(e) && e.states[|e.labels|] == r.states[n].core && NoForeignIds(e, a)
    decreases n
  {
    hide HonestAnswer, Enabled, Apply, NoForeignId, AppOf;
    if n == 0 {
      e := Execution([INIT], []);
    } else {
      var before := CoreOfShop(r, n - 1, a);
      var h, event := r.states[n - 1], r.events[n - 1];
      if event.Core? {
        e := Execution(before.states + [Apply(h.core, event.move)], before.labels + [event.move]);
        assert event.move.Step? && event.move.t in h.core.threads ==> NoForeignId(h.core.world, h.core.threads[event.move.t]) by {
          if event.move.Step? && event.move.t in h.core.threads { NothingForeignHere(r, n - 1, event.move.t); }
        }
        ForeignFreeGrows(before, e, a);
      } else {
        e := before;
      }
    }
  }

  lemma ForeignFreeGrows(before: Execution, e: Execution, a: AppId)
    requires ValidRun(before) && NoForeignIds(before, a)
    requires |e.states| == |e.labels| + 1 && |e.labels| == |before.labels| + 1
    requires before.states <= e.states && before.labels <= e.labels
    requires var l, s := e.labels[|before.labels|], before.states[|before.labels|];
             l.Step? && l.t in s.threads ==> NoForeignId(s.world, s.threads[l.t])
    ensures NoForeignIds(e, a)
  {
    hide NoForeignId, AppOf, Enabled, Apply;
    forall i | 0 <= i < |e.labels| && e.labels[i].Step? && OwnLabel(e.states[i], e.labels[i], a)
      ensures NoForeignId(e.states[i].world, e.states[i].threads[e.labels[i].t])
    {
      if i < |before.labels| {
        assert e.labels[i] == before.labels[i] && e.states[i] == before.states[i];
      }
    }
  }

  /**
   * Beside an honest provider an application is never affected by the others: at every moment of every run its rows and
   * requests are those of a run with its own steps alone.
   */
  lemma AloneBesideHonest(r: ShopRun, n: nat, a: AppId) returns (alone: Execution)
    requires ValidShopRun(r) && n < |r.states|
    ensures ValidRun(alone) && Shadows(r.states[n].core, alone.states[|alone.labels|], a)
  {
    hide ValidShopRun, Shadows, NoForeignIds;
    var e := CoreOfShop(r, n, a);
    alone := AloneIsTheSame(e, |e.labels|, a);
  }

  // ---- two provider payments for one order ----

  ghost predicate HasRow(h: Shop, p: Uuid) {
    && p in h.core.world.db.payments && p in h.core.world.opOf && h.core.world.opOf[p] in h.core.world.db.operations
  }

  /** Two provider payments for one order, neither of them canceled. */
  ghost predicate TwoLive(h: Shop, slot: Slot, p: Uuid, q: Uuid) {
    && p != q && HasRow(h, p) && HasRow(h, q)
    && h.core.world.db.payments[p].slot == slot && h.core.world.db.payments[q].slot == slot
    && LiveAtProvider(h, p) && LiveAtProvider(h, q)
  }

  /** At step j attempt q is committed although its order is already paid. */
  ghost predicate PaidCommit(r: ShopRun, j: nat, slot: Slot, q: Uuid)
    requires |r.states| == |r.events| + 1
  {
    && j < |r.events| && r.events[j].Core? && r.events[j].move.Step?
    && CommitsPaid(r.states[j].core, r.events[j].move.t, slot, q)
  }

  ghost predicate CommitsPaid(s: State, t: nat, slot: Slot, q: Uuid) {
    && t in s.threads && s.threads[t].TxCommit? && s.threads[t].local.payment == q && s.threads[t].req.slot == slot
    && OrderHasSucceededPayment(s.world.db, slot)
  }

  lemma ShopRowStep(h: Shop, e: Event, p: Uuid)
    requires ShopOK(h) && Possible(h, e) && p in h.core.world.db.payments
    ensures p in After(h, e).core.world.db.payments
    ensures Later(h.core.world.db.payments[p], After(h, e).core.world.db.payments[p])
  {
    hide Inv, Enabled, Apply, HonestAnswer;
    if e.Core? { StepIsLegal(h.core, e.move, p); }
  }

  lemma {:induction false} ShopRowStays(r: ShopRun, j: nat, i: nat, p: Uuid)
    requires ValidShopRun(r) && j <= i < |r.states| && p in r.states[j].core.world.db.payments
    ensures p in r.states[i].core.world.db.payments
    ensures Later(r.states[j].core.world.db.payments[p], r.states[i].core.world.db.payments[p])
    decreases i - j
  {
    hide ShopOK, Possible, After;
    if j < i {
      ShopRowStays(r, j, i - 1, p);
      ShopRunOK(r, i - 1);
      ShopRowStep(r.states[i - 1], r.events[i - 1], p);
    }
  }

  ghost predicate InsertedAt(r: ShopRun, j: nat, p: Uuid)
    requires |r.states| == |r.events| + 1
  {
    j < |r.events| && p !in r.states[j].core.world.db.payments && p in r.states[j + 1].core.world.db.payments
  }

  lemma {:induction false} Inserted(r: ShopRun, i: nat, p: Uuid)
    requires ValidShopRun(r) && i < |r.states| && p in r.states[i].core.world.db.payments
    ensures exists j: nat :: j < i && InsertedAt(r, j, p)
  {
    hide Possible, After;
    if i > 0 {
      if p in r.states[i - 1].core.world.db.payments {
        Inserted(r, i - 1, p);
      } else {
        assert InsertedAt(r, i - 1, p);
      }
    }
  }

  /** How a row gets in beside a terminal attempt that is not canceled: a commit on a paid order. */
  lemma InsertBesidePaid(h: Shop, e: Event, p: Uuid, q: Uuid, slot: Slot)
    requires ShopOK(h) && Possible(h, e) && q !in h.core.world.db.payments && q in After(h, e).core.world.db.payments
    requires After(h, e).core.world.db.payments[q].slot == slot
    requires p in h.core.world.db.payments && h.core.world.db.payments[p].slot == slot
    requires h.core.world.db.payments[p].status != Canceled
    ensures e.Core? && e.move.Step? && CommitsPaid(h.core, e.move.t, slot, q)
  {
    hide WorldOK, ThreadOK, HonestAnswer, Perform, Accepts, Unblocked, Fresh, KeysOK, ReadingsTrue, RowsTrue, ThreadsTrue;
    if e.Core? && e.move.Step? {
      var s, t := h.core, e.move.t;
      NewRow(s.world, s.threads[t], e.move.choice, q);
      assert OrderHasSucceededPayment(s.world.db, slot);
      hide OrderHasSucceededPayment;
      CommitInserts(s.world, s.threads[t], e.move.choice, q);
    }
  }

  lemma CommitInserts(w: World, th: Thread, c: Choice, q: Uuid)
    requires th.TxCommit? && Accepts(th, c) && q !in w.db.payments && q in Perform(w, th, c).world.db.payments
    ensures th.local.payment == q
  {
  }

  lemma CommitAddsRow(h: Shop, e: Event, slot: Slot, q: Uuid)
    requires ShopOK(h) && Possible(h, e) && e.Core? && e.move.Step? && CommitsPaid(h.core, e.move.t, slot, q)
    ensures q !in h.core.world.db.payments && HasPayment(After(h, e), q, slot)
  {
    hide WorldOK, HonestAnswer, Unblocked, KeysOK, ReadingsTrue, RowsTrue, ThreadsTrue, OrderHasSucceededPayment, Settled;
    CommitPending(h.core, e.move.t);
    hide ThreadOK;
  }

  ghost predicate HasPayment(h: Shop, q: Uuid, slot: Slot) {
    q in h.core.world.db.payments && h.core.world.db.payments[q].slot == slot
  }

  lemma CommitPending(s: State, t: nat)
    requires Inv(s) && t in s.threads && s.threads[t].TxCommit?
    ensures s.threads[t].local.payment !in s.world.db.payments && s.threads[t].local.row.slot == s.threads[t].req.slot
  {
    hide WorldOK, Settled, OrderHasSucceededPayment;
    assert ThreadOK(s.world, s.threads[t]);
  }

  /** Of two live payments of one order the later one was committed on a paid order. */
  lemma LaterWasPaidCommit(r: ShopRun, i: nat, slot: Slot, p: Uuid, q: Uuid, jp: nat, jq: nat)
    requires ValidShopRun(r) && i < |r.states| && TwoLive(r.states[i], slot, p, q)
    requires jp < jq < i && InsertedAt(r, jp, p) && InsertedAt(r, jq, q)
    ensures PaidCommit(r, jq, slot, q)
  {
    hide ShopOK, Possible, After, LiveAtProvider, CommitsPaid;
    ShopRowStays(r, jp + 1, jq, p);
    ShopRowStays(r, jq, i, p);
    ShopRowStays(r, jq + 1, i, q);
    ShopRunOK(r, i);
    ShopRunOK(r, jq);
    if r.states[i].core.world.db.payments[p].status == Canceled { CanceledIsDead(r.states[i], p); }
    InsertBesidePaid(r.states[jq], r.events[jq], p, q, slot);
  }

  lemma OneInsertEach(h: Shop, e: Event, p: Uuid, q: Uuid)
    requires ShopOK(h) && Possible(h, e) && p != q
    requires p !in h.core.world.db.payments && q !in h.core.world.db.payments
    ensures !(p in After(h, e).core.world.db.payments && q in After(h, e).core.world.db.payments)
  {
    hide Inv, Enabled, Apply, HonestAnswer;
    if e.Core? && p in After(h, e).core.world.db.payments && q in After(h, e).core.world.db.payments {
      OnlyOneNew(h.core, e.move, p, q);
    }
  }

  /** A paid commit whose payment the provider made and did not cancel leaves two live payments for the order. */
  lemma PaidCommitDoubles(r: ShopRun, i: nat, j: nat, slot: Slot, q: Uuid)
    requires ValidShopRun(r) && i < |r.states| && j < i && PaidCommit(r, j, slot, q)
    requires HasRow(r.states[i], q) && LiveAtProvider(r.states[i], q)
    ensures exists p :: TwoLive(r.states[i], slot, p, q)
  {
    hide ShopOK, Possible, After, LiveAtProvider;
    ShopRunOK(r, j);
    ShopRunOK(r, i);
    var db := r.states[j].core.world.db;
    var p := PaidRow(db, slot);
    CommitAddsRow(r.states[j], r.events[j], slot, q);
    ShopRowStays(r, j, i, p);
    ShopRowStays(r, j + 1, i, q);
    SucceededLives(r, i, p);
    assert TwoLive(r.states[i], slot, p, q);
  }

  lemma SucceededLives(r: ShopRun, i: nat, p: Uuid)
    requires ValidShopRun(r) && i < |r.states|
    requires p in r.states[i].core.world.db.payments && r.states[i].core.world.db.payments[p].status == Succeeded
    ensures HasRow(r.states[i], p) && LiveAtProvider(r.states[i], p)
  {
    hide Possible, After;
    SucceededIsPaid(r, i, p);
  }

  /**
   * Beside an honest provider an order has two provider payments that are not canceled exactly when one of its attempts
   * was committed on the paid order and the provider made a payment for it that it has not canceled.
   */
  lemma DoubleChargeExactly(r: ShopRun, i: nat, slot: Slot)
    requires ValidShopRun(r) && i < |r.states|
    ensures (exists p, q :: TwoLive(r.states[i], slot, p, q))
            <==> (exists j: nat, q :: j < i && PaidCommit(r, j, slot, q) && HasRow(r.states[i], q) && LiveAtProvider(r.states[i], q))
  {
    hide ShopOK, Possible, After, LiveAtProvider, CommitsPaid;
    if p, q :| TwoLive(r.states[i], slot, p, q) {
      Inserted(r, i, p);
      Inserted(r, i, q);
      var jp: nat :| jp < i && InsertedAt(r, jp, p);
      var jq: nat :| jq < i && InsertedAt(r, jq, q);
      if jp == jq {
        ShopRunOK(r, jp);
        OneInsertEach(r.states[jp], r.events[jp], p, q);
      }
      if jp < jq {
        LaterWasPaidCommit(r, i, slot, p, q, jp, jq);
      } else {
        LaterWasPaidCommit(r, i, slot, q, p, jq, jp);
      }
    }
    if j: nat, q :| j < i && PaidCommit(r, j, slot, q) && HasRow(r.states[i], q) && LiveAtProvider(r.states[i], q) {
      PaidCommitDoubles(r, i, j, slot, q);
    }
  }
}
