/** The payments table refines an append-only ledger of attempts per order. */
module Ledger {
  import opened PaymentStates
  import opened ProviderClient
  import opened Tables
  import opened Protocol
  import opened Effects
  import opened Invariant
  import opened WorldSteps
  import opened Runs
  import opened Histories
  import opened Atomicity

  datatype Entry = Entry(payment: Uuid, status: Status)

  type Book = map<Slot, seq<Entry>>

  // ---- the specification ----

  ghost function Lines(b: Book, slot: Slot): seq<Entry> {
    if slot in b then b[slot] else []
  }

  /** A new line goes to the end, and only when every earlier line is closed (strict: canceled). */
  ghost predicate Append(b: Book, b': Book, slot: Slot, p: Uuid, strict: bool) {
    && b' == b[slot := Lines(b, slot) + [Entry(p, Created)]]
    && forall i :: 0 <= i < |Lines(b, slot)| ==>
         Lines(b, slot)[i].payment != p && Lines(b, slot)[i].status.Terminal() && (strict ==> Lines(b, slot)[i].status == Canceled)
  }

  /** Only the last line of an order moves, along an edge of the transition table. */
  ghost predicate Advance(b: Book, b': Book, slot: Slot, status: Status) {
    && slot in b && b[slot] != []
    && var last := |b[slot]| - 1;
       && CanTransition(b[slot][last].status, status)
       && b' == b[slot := b[slot][last := b[slot][last].(status := status)]]
  }

  ghost predicate BookStep(b: Book, b': Book, strict: bool) {
    || b' == b
    || (exists slot, p :: Append(b, b', slot, p, strict))
    || (exists slot, status :: Advance(b, b', slot, status))
  }

  // ---- the abstraction ----

  ghost function EntryOf(db: Store, p: Uuid): Entry {
    Entry(p, if p in db.payments then db.payments[p].status else Created)
  }

  ghost function EntriesOf(db: Store, list: seq<Uuid>): seq<Entry> {
    seq(|list|, i requires 0 <= i < |list| => EntryOf(db, list[i]))
  }

  /** The book of a world: for every order its payments in attempt order. */
  ghost function BookOf(w: World): Book {
    map slot | slot in w.attempts :: EntriesOf(w.db, w.attempts[slot])
  }

  /** The book lists exactly the rows of the table: line n of an order is its payment with attempt number n. */
  lemma BookIsTable(r: Execution, i: nat, p: Uuid)
    requires ValidRun(r) && i < |r.states| && p in r.states[i].world.db.payments
    ensures var w := r.states[i].world;
            var row := w.db.payments[p];
            var lines := Lines(BookOf(w), row.slot);
            && 1 <= row.attempt <= |lines| && lines[row.attempt - 1] == Entry(p, row.status)
            && forall n :: 0 <= n < |lines| ==>
                 && lines[n].payment in w.db.payments && w.db.payments[lines[n].payment].slot == row.slot
                 && w.db.payments[lines[n].payment].attempt == n + 1
                 && w.db.payments[lines[n].payment].status == lines[n].status
  {
    hide WorldOK;
    RunInv(r, i);
    var w := r.states[i].world;
    AtPayment(w, p);
    AtSlot(w, w.db.payments[p].slot);
  }

  // ---- refinement ----

  /** The one payment row a step may write. */
  ghost function TargetOf(th: Thread, c: Choice): Uuid {
    match th
    case OpenLocal(_, _) => if c.Atomic? then c.p else 0
    case TxCommit(_, l, _) => l.payment
    case MarkCreating(_, l) => l.payment
    case PersistCreated(_, l, _, _) => l.payment
    case PersistUnknown(_, l, _) => l.payment
    case PersistCanceled(_, l, _) => l.payment
    case GetApply(_, p, _, _) => p
    case _ => 0
  }

  ghost predicate WritesOne(w: World, w': World, p: Uuid) {
    || (w'.db.payments == w.db.payments && w'.attempts == w.attempts)
    || (p in w.db.payments && p in w'.db.payments && w'.attempts == w.attempts
        && w'.db.payments == w.db.payments[p := w'.db.payments[p]])
    || (p !in w.db.payments && p in w'.db.payments
        && w'.db.payments == w.db.payments[p := w'.db.payments[p]]
        && w'.attempts == w.attempts[w'.db.payments[p].slot := AttemptsOf(w, w'.db.payments[p].slot) + [p]])
  }

  lemma StepWritesOne(w: World, th: Thread, c: Choice)
    requires WorldOK(w) && ThreadOK(w, th) && Accepts(th, c) && Fresh(w, c)
    ensures WritesOne(w, Perform(w, th, c).world, TargetOf(th, c))
  {
    hide WorldOK;
    if th.TxCommit? || (th.OpenLocal? && c.Atomic?) {
      InsertWritesOne(w, th, c);
    } else {
      hide ThreadOK;
      UpdateWritesOne(w, th, c);
    }
  }

  lemma InsertWritesOne(w: World, th: Thread, c: Choice)
    requires WorldOK(w) && ThreadOK(w, th) && Accepts(th, c) && Fresh(w, c) && (th.TxCommit? || (th.OpenLocal? && c.Atomic?))
    ensures WritesOne(w, Perform(w, th, c).world, TargetOf(th, c))
  {
    hide WorldOK, Perform, NextAttemptNumber, InsertViolates, OrderHasSucceededPayment, NewPayment, NewOperation;
    StepWrites(w, th, c);
    if th.OpenLocal? {
      hide ThreadOK;
      if c.p in w.db.payments { AtPayment(w, c.p); }
      AtomicRow(w, th, c);
    } else {
      hide CreateLocal;
      CommitsNewRow(w, th);
      hide ThreadOK;
    }
  }

  lemma AtomicRow(w: World, th: Thread, c: Choice)
    requires th.OpenLocal? && c.Atomic?
    ensures NewPayment(th.req.slot, th.account, NextAttemptNumber(w.db, th.req.slot), th.req.input).slot == th.req.slot
  {
    hide NextAttemptNumber;
  }

  lemma CommitsNewRow(w: World, th: Thread)
    requires ThreadOK(w, th) && th.TxCommit?
    ensures th.local.payment !in w.db.payments && th.local.row.slot == th.req.slot
  {
    hide Settled;
  }

  lemma UpdateWritesOne(w: World, th: Thread, c: Choice)
    requires Accepts(th, c) && !th.TxCommit? && !(th.OpenLocal? && c.Atomic?)
    ensures WritesOne(w, Perform(w, th, c).world, TargetOf(th, c))
  {
    hide Perform, RequestOf, GetResult, CreateLocal, InsertLocal, ProviderIdTaken;
    StepWrites(w, th, c);
  }

  lemma SameBook(w: World, w': World)
    requires w'.db.payments == w.db.payments && w'.attempts == w.attempts
    ensures BookOf(w') == BookOf(w)
  {
    forall slot | slot in w.attempts ensures EntriesOf(w'.db, w.attempts[slot]) == EntriesOf(w.db, w.attempts[slot]) {}
  }

  lemma AppendRefines(w: World, w': World, p: Uuid, strict: bool)
    requires WorldOK(w) && p !in w.db.payments && p in w'.db.payments && WritesOne(w, w', p)
    requires w'.db.payments[p].status == Created && Settled(w.db, w'.db.payments[p].slot)
    requires strict ==> SingleLive(w'.db)
    ensures Append(BookOf(w), BookOf(w'), w'.db.payments[p].slot, p, strict)
  {
    hide WorldOK, SingleLive, EntriesOf, AttemptsOK, Settled;
    var slot := w'.db.payments[p].slot;
    var list := AttemptsOf(w, slot);
    LinesClosed(w, slot, p);
    AppendBook(w, w', p);
    forall i | 0 <= i < |list| && strict ensures EntryOf(w.db, list[i]).status == Canceled {
      LiveApart(w'.db, list[i], p);
    }
    EntriesAt(w.db, list);
    assert Lines(BookOf(w), slot) == EntriesOf(w.db, list) by { NoEntries(w.db); }
  }

  lemma NoEntries(db: Store)
    ensures EntriesOf(db, []) == []
  {
  }

  lemma EntriesAt(db: Store, list: seq<Uuid>)
    ensures |EntriesOf(db, list)| == |list| && forall i :: 0 <= i < |list| ==> EntriesOf(db, list)[i] == EntryOf(db, list[i])
  {
  }

  /** The attempts of an order without an open one are all closed, and none of them is new. */
  lemma LinesClosed(w: World, slot: Slot, p: Uuid)
    requires WorldOK(w) && Settled(w.db, slot) && p !in w.db.payments
    ensures forall i :: 0 <= i < |AttemptsOf(w, slot)| ==>
      var q := AttemptsOf(w, slot)[i];
      q != p && q in w.db.payments && w.db.payments[q].slot == slot && w.db.payments[q].status.Terminal()
  {
    hide WorldOK;
    if slot in w.attempts { AtSlot(w, slot); }
  }

  lemma AppendBook(w: World, w': World, p: Uuid)
    requires WorldOK(w) && p !in w.db.payments && p in w'.db.payments && WritesOne(w, w', p)
    requires w'.db.payments[p].status == Created
    ensures var slot := w'.db.payments[p].slot;
            BookOf(w') == BookOf(w)[slot := EntriesOf(w.db, AttemptsOf(w, slot)) + [Entry(p, Created)]]
  {
    hide WorldOK, EntriesOf, AttemptsOK;
    var slot := w'.db.payments[p].slot;
    var list := AttemptsOf(w, slot);
    forall s | s in w.attempts ensures EntriesOf(w'.db, w.attempts[s]) == EntriesOf(w.db, w.attempts[s]) {
      OldEntries(w, w', p, s);
    }
    NoEntries(w'.db);
    NoEntries(w.db);
    EntriesAppend(w'.db, list, p);
  }

  lemma OldEntries(w: World, w': World, p: Uuid, s: Slot)
    requires WorldOK(w) && p !in w.db.payments && p in w'.db.payments && s in w.attempts
    requires w'.db.payments == w.db.payments[p := w'.db.payments[p]]
    ensures EntriesOf(w'.db, w.attempts[s]) == EntriesOf(w.db, w.attempts[s])
  {
    hide WorldOK;
    AtSlot(w, s);
  }

  lemma EntriesAppend(db: Store, list: seq<Uuid>, p: Uuid)
    ensures EntriesOf(db, list + [p]) == EntriesOf(db, list) + [EntryOf(db, p)]
  {
  }

  lemma LiveApart(db: Store, p: Uuid, q: Uuid)
    requires SingleLive(db) && p in db.payments && q in db.payments && p != q && db.payments[p].slot == db.payments[q].slot
    requires db.payments[q].status == Created
    ensures db.payments[p].status == Canceled
  {
  }

  lemma AdvanceRefines(w: World, w': World, p: Uuid)
    requires WorldOK(w) && p in w.db.payments && p in w'.db.payments && w'.attempts == w.attempts
    requires w'.db.payments == w.db.payments[p := w'.db.payments[p]]
    requires CanTransition(w.db.payments[p].status, w'.db.payments[p].status)
    ensures Advance(BookOf(w), BookOf(w'), w.db.payments[p].slot, w'.db.payments[p].status)
  {
    hide WorldOK;
    var slot := w.db.payments[p].slot;
    AtPayment(w, p);
    AtSlot(w, slot);
    TableIsRanked(w.db.payments[p].status, w'.db.payments[p].status);
    var list := w.attempts[slot];
    forall s | s in w.attempts && s != slot ensures EntriesOf(w'.db, w.attempts[s]) == EntriesOf(w.db, w.attempts[s]) {
      OtherSlot(w, w', p, s);
    }
    assert list[|list| - 1] == p;
    forall i | 0 <= i < |list| - 1 ensures list[i] != p {}
    var entries := EntriesOf(w.db, list);
    assert EntriesOf(w'.db, list) == entries[|list| - 1 := entries[|list| - 1].(status := w'.db.payments[p].status)];
  }

  lemma OtherSlot(w: World, w': World, p: Uuid, s: Slot)
    requires WorldOK(w) && p in w.db.payments && p in w'.db.payments && s in w.attempts && s != w.db.payments[p].slot
    requires w'.db.payments == w.db.payments[p := w'.db.payments[p]]
    ensures EntriesOf(w'.db, w.attempts[s]) == EntriesOf(w.db, w.attempts[s])
  {
    hide WorldOK;
    AtSlot(w, s);
  }

  /** Every step of the core is a step of the ledger; a strict one when it keeps a single live attempt. */
  lemma StepRefines(s: State, l: Label, strict: bool)
    requires Inv(s) && Enabled(s, l) && (strict ==> SingleLive(s.world.db) && CommitsOnUnpaid(s, l))
    ensures BookStep(BookOf(s.world), BookOf(Apply(s, l).world), strict)
  {
    hide WorldOK, ThreadOK, Perform, Accepts, Unblocked, Fresh, BookOf, SingleLive, Append, Advance, WritesOne, CommitsOnUnpaid;
    var w, w' := s.world, Apply(s, l).world;
    if strict { SingleLiveStep(s, l); }
    if l.Step? {
      StepWritesOne(w, s.threads[l.t], l.choice);
      var p := TargetOf(s.threads[l.t], l.choice);
      OneWriteRefines(s, l, w', p, strict);
    }
  }

  lemma OneWriteRefines(s: State, l: Label, w': World, p: Uuid, strict: bool)
    requires Inv(s) && Enabled(s, l) && l.Step? && w' == Apply(s, l).world
    requires WritesOne(s.world, w', p) && (strict ==> SingleLive(w'.db))
    ensures BookStep(BookOf(s.world), BookOf(w'), strict)
  {
    hide WorldOK, ThreadOK, Perform, Accepts, Unblocked, Fresh, BookOf, SingleLive, Append, Advance, Later;
    var w := s.world;
    if w'.db.payments == w.db.payments && w'.attempts == w.attempts {
      SameBook(w, w');
    } else if p in w.db.payments {
      StepIsLegal(s, l, p);
      if w'.db.payments[p] == w.db.payments[p] {
        SameBook(w, w');
      } else {
        AdvanceRefines(w, w', p);
        assert Advance(BookOf(w), BookOf(w'), w.db.payments[p].slot, w'.db.payments[p].status);
      }
    } else {
      NewRow(w, s.threads[l.t], l.choice, p);
      AppendRefines(w, w', p, strict);
      assert Append(BookOf(w), BookOf(w'), w'.db.payments[p].slot, p, strict);
    }
  }

  /** At statement granularity the tables refine a ledger that appends behind closed attempts. */
  lemma RunRefinesLedger(r: Execution, i: nat)
    requires ValidRun(r) && i < |r.labels|
    ensures BookOf(r.states[0].world) == map[]
    ensures BookStep(BookOf(r.states[i].world), BookOf(r.states[i + 1].world), false)
  {
    hide Inv, Enabled, Apply, BookStep;
    RunInv(r, i);
    StepRefines(r.states[i], r.labels[i], false);
  }

  /** With createLocal as one step they refine the ledger that appends only behind canceled attempts. */
  lemma AtomicRunRefinesStrictLedger(r: Execution, i: nat)
    requires AtomicRun(r) && i < |r.labels|
    ensures BookOf(r.states[0].world) == map[]
    ensures BookStep(BookOf(r.states[i].world), BookOf(r.states[i + 1].world), true)
  {
    hide Inv, Enabled, Apply, BookStep, SingleLive, AtomicLabel;
    RunInv(r, i);
    AtomicSingleLive(r, i);
    var l := r.labels[i];
    if l.Step? && l.t in r.states[i].threads { NoTxInAtomicRun(r, i, l.t); }
    StepRefines(r.states[i], l, true);
  }
}
