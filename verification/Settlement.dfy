/**
 * The payment core beside an honest provider: idempotent per key, terminal states sticky, no payment behind a
 * definitive refusal, and free to process a request long after the caller gave up on it.
 */
module Settlement {
  import opened Basics
  import opened PaymentStates
  import opened ProviderClient
  import opened Tables
  import opened Protocol
  import opened Effects
  import opened Invariant
  import opened WorldSteps
  import opened Runs
  import opened Histories
  import opened Atomicity
  import Outcomes

  /** The provider's own books: the payment made for a key, the keys refused, the status of every payment. */
  datatype Provider = Provider(made: map<Uuid, ProviderId>, refused: set<Uuid>, status: map<ProviderId, Status>)

  datatype Shop = Shop(core: State, provider: Provider)

  datatype Event =
    | Core(move: Label)
    | Make(o: Uuid, id: ProviderId)          // the provider processes the request sent for operation o
    | Refuse(o: Uuid)                        // ... or refuses it for good
    | Resolve(id: ProviderId, status: Status)  // a provider payment is paid or canceled

  ghost predicate Sent(w: World, o: Uuid) {
    o in w.db.operations && CallsOf(w, o) != []
  }

  /** Answers are truthful; lost answers, timeouts, 429 and 5xx say nothing and are always possible. */
  ghost predicate HonestAnswer(h: Shop, l: Label) {
    l.Step? && l.t in h.core.threads && l.choice.Reply? ==>
      var th, x := h.core.threads[l.t], l.choice.exchange;
      && (th.AwaitAnswer? ==>
            && (Carries(x) ==> th.local.providerKey in h.provider.made
                               && h.provider.made[th.local.providerKey] == x.payment.value.id)
            && (Refusal(x) ==> th.local.providerKey in h.provider.refused))
      && (th.GetRefresh? && th.row.providerId.Some? && Carries(x) ==>
            && th.row.providerId.value in h.provider.status
            && StandsFor(x.payment.value.status, h.provider.status[th.row.providerId.value]))
  }

  ghost predicate Possible(h: Shop, e: Event) {
    match e
    case Core(l) => Enabled(h.core, l) && HonestAnswer(h, l)
    case Make(o, id) =>
      && Sent(h.core.world, o) && id != NO_ID && id !in h.provider.status
      && var key := h.core.world.db.operations[o].providerKey; key !in h.provider.made && key !in h.provider.refused
    case Refuse(o) =>
      && Sent(h.core.world, o)
      && var key := h.core.world.db.operations[o].providerKey; key !in h.provider.made && key !in h.provider.refused
    case Resolve(id, status) =>
      id in h.provider.status && h.provider.status[id] == Pending && (status == Succeeded || status == Canceled)
  }

  ghost function After(h: Shop, e: Event): Shop
    requires Possible(h, e)
  {
    var v := h.provider;
    match e
    case Core(l) => h.(core := Apply(h.core, l))
    case Make(o, id) =>
      h.(provider := v.(made := v.made[h.core.world.db.operations[o].providerKey := id], status := v.status[id := Pending]))
    case Refuse(o) => h.(provider := v.(refused := v.refused + {h.core.world.db.operations[o].providerKey}))
    case Resolve(id, status) => h.(provider := v.(status := v.status[id := status]))
  }

  // ---- the invariant ----

  /** A provider key that reached the provider is the key of a committed operation that was sent. */
  ghost predicate KeyKnown(w: World, key: Uuid) {
    && key in w.issued && w.issued[key] in w.opOf
    && Sent(w, w.opOf[w.issued[key]]) && w.db.operations[w.opOf[w.issued[key]]].providerKey == key
  }

  ghost predicate BooksOK(v: Provider) {
    && (forall k :: k in v.made ==> v.made[k] in v.status && v.made[k] != NO_ID && k !in v.refused)
    && (forall k, k' :: k in v.made && k' in v.made && k != k' ==> v.made[k] != v.made[k'])
  }

  ghost predicate KeysOK(h: Shop) {
    && (forall k :: k in h.provider.made ==> KeyKnown(h.core.world, k))
    && (forall k :: k in h.provider.refused ==> KeyKnown(h.core.world, k))
  }

  ghost predicate ReadingsTrue(h: Shop) {
    forall x :: x in h.core.world.readings && x.status.Terminal() ==>
      x.id in h.provider.status && h.provider.status[x.id] == x.status
  }

  /** What a payment row says about the provider. */
  ghost predicate RowTrue(w: World, v: Provider, p: Uuid)
    requires p in w.db.payments && p in w.opOf && w.opOf[p] in w.db.operations
  {
    var row, o := w.db.payments[p], w.opOf[p];
    var key := w.db.operations[o].providerKey;
    && (row.providerId.Some? ==> key in v.made && v.made[key] == row.providerId.value)
    && (row.status == Canceled && row.providerId.None? ==> key in v.refused || CallsOf(w, o) == [])
  }

  ghost predicate ThreadTrue(w: World, v: Provider, th: Thread) {
    match th
    case PersistCreated(_, l, id, _) => l.providerKey in v.made && v.made[l.providerKey] == id
    case PersistCanceled(_, l, _) => l.providerKey in v.refused || CallsOf(w, l.operation) == []
    case _ => true
  }

  ghost predicate RowsTrue(h: Shop) {
    forall p :: p in h.core.world.db.payments ==>
      && p in h.core.world.opOf && h.core.world.opOf[p] in h.core.world.db.operations
      && RowTrue(h.core.world, h.provider, p)
  }

  ghost predicate ThreadsTrue(h: Shop) {
    forall t :: t in h.core.threads ==> ThreadTrue(h.core.world, h.provider, h.core.threads[t])
  }

  ghost predicate ShopOK(h: Shop) {
    Inv(h.core) && BooksOK(h.provider) && KeysOK(h) && ReadingsTrue(h) && RowsTrue(h) && ThreadsTrue(h)
  }

  // ---- the provider's own moves ----

  lemma MakeKeeps(h: Shop, e: Event)
    requires ShopOK(h) && e.Make? && Possible(h, e)
    ensures ShopOK(After(h, e))
  {
    hide Inv, KeysOK, ReadingsTrue, RowsTrue, ThreadsTrue;
    MakeKeys(h, e);
    MakeRows(h, e);
    MakeThreads(h, e);
    MakeReadings(h, e);
  }

  lemma MakeKeys(h: Shop, e: Event)
    requires Inv(h.core) && KeysOK(h) && e.Make? && Possible(h, e)
    ensures KeysOK(After(h, e))
  {
    hide Inv;
    AtOperationOf(h.core, e.o);
  }

  lemma MakeRows(h: Shop, e: Event)
    requires RowsTrue(h) && e.Make? && Possible(h, e)
    ensures RowsTrue(After(h, e))
  {
    forall p | p in h.core.world.db.payments
      ensures p in h.core.world.opOf && h.core.world.opOf[p] in h.core.world.db.operations
           && RowTrue(h.core.world, After(h, e).provider, p)
    {
      assert RowTrue(h.core.world, h.provider, p);
    }
  }

  lemma MakeThreads(h: Shop, e: Event)
    requires ThreadsTrue(h) && e.Make? && Possible(h, e)
    ensures ThreadsTrue(After(h, e))
  {
    forall t | t in h.core.threads ensures ThreadTrue(h.core.world, After(h, e).provider, h.core.threads[t]) {
      assert ThreadTrue(h.core.world, h.provider, h.core.threads[t]);
    }
  }

  lemma MakeReadings(h: Shop, e: Event)
    requires ReadingsTrue(h) && e.Make? && Possible(h, e)
    ensures ReadingsTrue(After(h, e))
  {
  }

  lemma RefuseKeeps(h: Shop, e: Event)
    requires ShopOK(h) && e.Refuse? && Possible(h, e)
    ensures ShopOK(After(h, e))
  {
    hide Inv, KeysOK, RowsTrue, ThreadsTrue;
    RefuseKeys(h, e);
    RefuseRows(h, e);
    RefuseThreads(h, e);
  }

  lemma RefuseKeys(h: Shop, e: Event)
    requires Inv(h.core) && KeysOK(h) && e.Refuse? && Possible(h, e)
    ensures KeysOK(After(h, e))
  {
    hide Inv;
    AtOperationOf(h.core, e.o);
  }

  lemma RefuseRows(h: Shop, e: Event)
    requires RowsTrue(h) && e.Refuse? && Possible(h, e)
    ensures RowsTrue(After(h, e))
  {
  }

  lemma RefuseThreads(h: Shop, e: Event)
    requires ThreadsTrue(h) && e.Refuse? && Possible(h, e)
    ensures ThreadsTrue(After(h, e))
  {
    forall t | t in h.core.threads ensures ThreadTrue(h.core.world, After(h, e).provider, h.core.threads[t]) {
      assert ThreadTrue(h.core.world, h.provider, h.core.threads[t]);
    }
  }

  lemma ResolveKeeps(h: Shop, e: Event)
    requires ShopOK(h) && e.Resolve? && Possible(h, e)
    ensures ShopOK(After(h, e))
  {
    hide Inv;
  }

  // ---- the core's moves ----

  lemma KeyKnownStays(w: World, w': World, c: Claims, key: Uuid, s: State, l: Label)
    requires Inv(s) && Enabled(s, l) && w == s.world && w' == Apply(s, l).world && KeyKnown(w, key)
    ensures KeyKnown(w', key)
  {
    hide Inv, Enabled, Apply, StepClaims, TouchesPayments;
    StepTouches(s, l);
    var o := w.opOf[w.issued[key]];
    SentStays(s, l, o);
  }

  lemma SentStays(s: State, l: Label, o: Uuid)
    requires Inv(s) && Enabled(s, l) && Sent(s.world, o)
    ensures CallsOf(Apply(s, l).world, o) == CallsOf(s.world, o)
  {
    hide Inv, Enabled, Apply;
    if CallsOf(Apply(s, l).world, o) != CallsOf(s.world, o) {
      WriteAhead(s, l, o);
    }
  }

  lemma KeysStep(h: Shop, l: Label)
    requires ShopOK(h) && Possible(h, Core(l))
    ensures KeysOK(After(h, Core(l)))
  {
    hide Inv, Enabled, Apply, HonestAnswer, RowsTrue, ThreadsTrue, ReadingsTrue, BooksOK, KeyKnown;
    var h' := After(h, Core(l));
    forall k | k in h'.provider.made ensures KeyKnown(h'.core.world, k) {
      KeyKnownStays(h.core.world, h'.core.world, NOTHING, k, h.core, l);
    }
    forall k | k in h'.provider.refused ensures KeyKnown(h'.core.world, k) {
      KeyKnownStays(h.core.world, h'.core.world, NOTHING, k, h.core, l);
    }
  }

  lemma ReadingsStep(h: Shop, l: Label)
    requires ShopOK(h) && Possible(h, Core(l))
    ensures ReadingsTrue(After(h, Core(l)))
  {
    hide Inv, Enabled, Apply, RowsTrue, ThreadsTrue, BooksOK, KeysOK, GetResult, CreateResult;
    var h' := After(h, Core(l));
    forall x | x in h'.core.world.readings && x.status.Terminal()
      ensures x.id in h'.provider.status && h'.provider.status[x.id] == x.status
    {
      if x !in h.core.world.readings {
        ReadingsComeFromAnswers(h.core, l, x);
      }
    }
  }

  /** Which thread can give a row its provider id, and which can cancel a row without one. */
  ghost predicate Explained(a: Payment, b: Payment, th: Thread, p: Uuid) {
    && (b.providerId != a.providerId && b.providerId.Some? ==>
          th.PersistCreated? && th.local.payment == p && b.providerId == Some(th.id))
    && (b.status == Canceled && b.providerId.None? && a.status != Canceled ==> th.PersistCanceled? && th.local.payment == p)
  }

  lemma RowEffects(w: World, th: Thread, c: Choice, p: Uuid)
    requires WorldOK(w) && ThreadOK(w, th) && Accepts(th, c) && p in w.db.payments && p in Perform(w, th, c).world.db.payments
    ensures Explained(w.db.payments[p], Perform(w, th, c).world.db.payments[p], th, p)
  {
    hide WorldOK;
    if th.TxCommit? || th.OpenLocal? {
      InsertEffects(w, th, c, p);
    } else if th.GetApply? {
      ApplyEffects(w, th, c, p);
    } else {
      hide ThreadOK;
      OtherEffects(w, th, c, p);
    }
  }

  lemma ApplyEffects(w: World, th: Thread, c: Choice, p: Uuid)
    requires ThreadOK(w, th) && Accepts(th, c) && th.GetApply? && p in w.db.payments
    ensures Explained(w.db.payments[p], Perform(w, th, c).world.db.payments[p], th, p)
  {
    hide OwnsAt, Owns, Settled;
  }

  lemma OtherEffects(w: World, th: Thread, c: Choice, p: Uuid)
    requires Accepts(th, c) && !th.TxCommit? && !th.OpenLocal? && !th.GetApply? && p in w.db.payments
    ensures p in Perform(w, th, c).world.db.payments
    ensures Explained(w.db.payments[p], Perform(w, th, c).world.db.payments[p], th, p)
  {
    hide Perform, Accepts, Explained;
    StepWrites(w, th, c);
    if Resolved(th) || th.MarkCreating? {
      hide WorldAfter;
      PersistEffects(w, th, c, p);
    } else {
      hide RequestOf, GetResult, CreateLocal, InsertLocal;
      SameRow(w.db.payments[p], th, p);
    }
  }

  lemma SameRow(row: Payment, th: Thread, p: Uuid)
    ensures Explained(row, row, th, p)
  {
  }

  lemma PersistEffects(w: World, th: Thread, c: Choice, p: Uuid)
    requires Accepts(th, c) && (Resolved(th) || th.MarkCreating?) && p in w.db.payments
    ensures p in WorldAfter(w, th, c).db.payments
    ensures Explained(w.db.payments[p], WorldAfter(w, th, c).db.payments[p], th, p)
  {
    hide ProviderIdTaken;
  }

  lemma InsertEffects(w: World, th: Thread, c: Choice, p: Uuid)
    requires ThreadOK(w, th) && Accepts(th, c) && (th.TxCommit? || th.OpenLocal?)
    requires p in w.db.payments && p in Perform(w, th, c).world.db.payments
    ensures var b := Perform(w, th, c).world.db.payments[p];
            b == w.db.payments[p] || (b.status == Created && b.providerId.None?)
  {
    hide NextAttemptNumber, InsertViolates, Settled;
  }

  lemma RowStep(h: Shop, l: Label, p: Uuid)
    requires ShopOK(h) && Possible(h, Core(l)) && p in h.core.world.db.payments
    ensures var w' := After(h, Core(l)).core.world;
            p in w'.db.payments && p in w'.opOf && w'.opOf[p] in w'.db.operations && RowTrue(w', h.provider, p)
  {
    hide WorldOK, Perform, Accepts, Unblocked, Fresh, HonestAnswer, KeysOK, ReadingsTrue, BooksOK, ThreadOK;
    var w, w' := h.core.world, After(h, Core(l)).core.world;
    StepIsLegal(h.core, l, p);
    RowOpStays(h.core, l, p);
    hide Later, ThreadTrue;
    if l.Step? {
      var th := h.core.threads[l.t];
      assert ThreadTrue(w, h.provider, th);
      RowEffects(w, th, l.choice, p);
      if th.PersistCreated? || th.PersistCanceled? {
        OwnerKey(w, th);
        OwnerKnows(w, h.provider, th);
      }
    }
  }

  lemma OwnerKnows(w: World, v: Provider, th: Thread)
    requires ThreadTrue(w, v, th)
    ensures th.PersistCreated? ==> th.local.providerKey in v.made && v.made[th.local.providerKey] == th.id
    ensures th.PersistCanceled? ==> th.local.providerKey in v.refused || CallsOf(w, th.local.operation) == []
  {
  }

  lemma OwnerKey(w: World, th: Thread)
    requires ThreadOK(w, th) && (th.PersistCreated? || th.PersistCanceled?)
    ensures th.local.payment in w.opOf && w.opOf[th.local.payment] == th.local.operation
    ensures th.local.operation in w.db.operations && w.db.operations[th.local.operation].providerKey == th.local.providerKey
  {
  }

  /** A row's operation and its key stay, and once the row left creating, so do its calls. */
  lemma RowOpStays(s: State, l: Label, p: Uuid)
    requires Inv(s) && Enabled(s, l) && p in s.world.db.payments
    ensures var w, w' := s.world, Apply(s, l).world;
            && p in w.opOf && p in w'.opOf && w'.opOf[p] == w.opOf[p]
            && w.opOf[p] in w.db.operations && w.opOf[p] in w'.db.operations
            && w'.db.operations[w.opOf[p]].providerKey == w.db.operations[w.opOf[p]].providerKey
            && (CallsOf(w', w.opOf[p]) != CallsOf(w, w.opOf[p]) ==> w.db.payments[p].status == Creating && w'.db == w.db)
  {
    hide Inv, Enabled, Apply, StepClaims, TouchesPayments;
    AtPaymentOf(s, p);
    StepTouches(s, l);
    if CallsOf(Apply(s, l).world, s.world.opOf[p]) != CallsOf(s.world, s.world.opOf[p]) {
      WriteAhead(s, l, s.world.opOf[p]);
    }
  }

  lemma NewRowTrue(h: Shop, l: Label, p: Uuid)
    requires ShopOK(h) && Possible(h, Core(l))
    requires p in Apply(h.core, l).world.db.payments && p !in h.core.world.db.payments
    ensures var w' := Apply(h.core, l).world;
            p in w'.opOf && w'.opOf[p] in w'.db.operations && RowTrue(w', h.provider, p)
  {
    hide WorldOK, ThreadOK, Perform, Accepts, Unblocked, Fresh, HonestAnswer, KeysOK, ReadingsTrue, BooksOK, RowsTrue, ThreadsTrue;
    InvStep(h.core, l);
    AtPaymentOf(Apply(h.core, l), p);
    NewRow(h.core.world, h.core.threads[l.t], l.choice, p);
  }

  lemma RowsStep(h: Shop, l: Label)
    requires ShopOK(h) && Possible(h, Core(l))
    ensures RowsTrue(After(h, Core(l)))
  {
    hide Inv, Enabled, Apply, HonestAnswer, KeysOK, ReadingsTrue, BooksOK, RowTrue, ShopOK;
    var h' := After(h, Core(l));
    forall p | p in h'.core.world.db.payments
      ensures p in h'.core.world.opOf && h'.core.world.opOf[p] in h'.core.world.db.operations
              && RowTrue(h'.core.world, h'.provider, p)
    {
      if p in h.core.world.db.payments { RowStep(h, l, p); } else { NewRowTrue(h, l, p); }
    }
  }

  /** A thread that keeps its knowledge: its key's fate is sealed and its calls are its own. */
  lemma ThreadStays(h: Shop, l: Label, t: nat)
    requires ShopOK(h) && Possible(h, Core(l)) && t in h.core.threads && (l.Step? ==> l.t != t)
    ensures ThreadTrue(Apply(h.core, l).world, h.provider, h.core.threads[t])
  {
    hide WorldOK, Perform, Accepts, Unblocked, Fresh, HonestAnswer, KeysOK, ReadingsTrue, BooksOK, RowsTrue;
    var th := h.core.threads[t];
    assert ThreadTrue(h.core.world, h.provider, th) && ThreadOK(h.core.world, th);
    if th.PersistCanceled? && l.Step? {
      OwnerKey(h.core.world, th);
      OthersDoNotCall(h.core, l, t);
    }
  }

  lemma OthersDoNotCall(s: State, l: Label, t: nat)
    requires Inv(s) && Enabled(s, l) && l.Step? && l.t != t && t in s.threads && s.threads[t].PersistCanceled?
    ensures CallsOf(Apply(s, l).world, s.threads[t].local.operation) == CallsOf(s.world, s.threads[t].local.operation)
  {
    hide WorldOK, Perform, Accepts, Unblocked, Fresh, Settled;
    var o := s.threads[t].local.operation;
    assert ThreadOK(s.world, s.threads[t]) && ThreadOK(s.world, s.threads[l.t]);
    assert Apart(ClaimsOf(s.threads[t]), ClaimsOf(s.threads[l.t]));
    CallsOnlyWhenSending(s.world, s.threads[l.t], l.choice, o);
  }

  lemma ActorStep(h: Shop, t: nat, c: Choice)
    requires ShopOK(h) && Possible(h, Core(Step(t, c)))
    ensures ThreadTrue(Apply(h.core, Step(t, c)).world, h.provider, Apply(h.core, Step(t, c)).threads[t])
  {
    hide WorldOK, KeysOK, ReadingsTrue, BooksOK, RowsTrue, Unblocked, Fresh;
    var w, th := h.core.world, h.core.threads[t];
    assert ThreadOK(w, th) && ThreadTrue(w, h.provider, th);
    if th.AwaitAnswer? || th.CallProvider? {
      AnswerStep(h, t, c);
    } else {
      hide ThreadOK, ThreadsTrue;
      NoNewKnowledge(w, h.provider, th, c);
    }
  }

  lemma NoNewKnowledge(w: World, v: Provider, th: Thread, c: Choice)
    requires Accepts(th, c) && !th.AwaitAnswer? && !th.CallProvider?
    ensures !Perform(w, th, c).thread.PersistCreated? && !Perform(w, th, c).thread.PersistCanceled?
  {
    hide Perform, Accepts;
    StepFollows(w, th, c);
  }

  lemma AnswerStep(h: Shop, t: nat, c: Choice)
    requires t in h.core.threads && Accepts(h.core.threads[t], c) && HonestAnswer(h, Step(t, c))
    requires h.core.threads[t].AwaitAnswer? || h.core.threads[t].CallProvider?
    requires ThreadOK(h.core.world, h.core.threads[t])
    ensures var out := Perform(h.core.world, h.core.threads[t], c); ThreadTrue(out.world, h.provider, out.thread)
  {
    hide CreateResult, GetResult, RequestOf, AfterCall, HonestAnswer;
    if c.Reply? && h.core.threads[t].AwaitAnswer? {
      AwaitedAnswer(h, t, c);
    } else if c.Reply? {
      NotBuiltAnswer(h.core.world, h.provider, h.core.threads[t], c);
    }
  }

  lemma AwaitedAnswer(h: Shop, t: nat, c: Choice)
    requires t in h.core.threads && Accepts(h.core.threads[t], c) && HonestAnswer(h, Step(t, c))
    requires h.core.threads[t].AwaitAnswer? && c.Reply?
    ensures ThreadTrue(h.core.world, h.provider, AfterCall(h.core.threads[t].req, h.core.threads[t].local, c.exchange))
  {
    var th, x := h.core.threads[t], c.exchange;
    Outcomes.AnswerLeads(th.req, th.local, x);
    hide AfterCall, Carries, Refusal, Outcomes.CodeFits, Outcomes.Url, Accepts;
  }

  lemma NotBuiltAnswer(w: World, v: Provider, th: Thread, c: Choice)
    requires Accepts(th, c) && th.CallProvider? && c.Reply? && ThreadOK(w, th)
    ensures ThreadTrue(w, v, AfterCall(th.req, th.local, c.exchange))
  {
  }

  lemma ThreadsStep(h: Shop, l: Label)
    requires ShopOK(h) && Possible(h, Core(l))
    ensures ThreadsTrue(After(h, Core(l)))
  {
    hide Inv, HonestAnswer, KeysOK, ReadingsTrue, BooksOK, RowsTrue, ShopOK, Perform, Accepts, Fresh, Unblocked;
    var h' := After(h, Core(l));
    forall t | t in h'.core.threads ensures ThreadTrue(h'.core.world, h'.provider, h'.core.threads[t]) {
      match l
      case Start(u, _) => if t != u { ThreadStays(h, l, t); }
      case Die(u) => if t != u { ThreadStays(h, l, t); }
      case Step(u, c) => if t != u { ThreadStays(h, l, t); } else { ActorStep(h, t, c); }
    }
  }

  /** Every step of the core and of the provider keeps the books and the tables in agreement. */
  lemma ShopStep(h: Shop, e: Event)
    requires ShopOK(h) && Possible(h, e)
    ensures ShopOK(After(h, e))
  {
    match e
    case Make(_, _) => MakeKeeps(h, e);
    case Refuse(_) => RefuseKeeps(h, e);
    case Resolve(_, _) => ResolveKeeps(h, e);
    case Core(l) => CoreKeeps(h, l);
  }

  lemma CoreKeeps(h: Shop, l: Label)
    requires ShopOK(h) && Possible(h, Core(l))
    ensures ShopOK(After(h, Core(l)))
  {
    InvStep(h.core, l);
    KeysStep(h, l);
    ReadingsStep(h, l);
    RowsStep(h, l);
    ThreadsStep(h, l);
    hide Inv, Enabled, Apply, HonestAnswer, KeysOK, ReadingsTrue, RowsTrue, ThreadsTrue, BooksOK;
  }

  // ---- runs of the shop ----

  datatype ShopRun = ShopRun(states: seq<Shop>, events: seq<Event>)

  const OPENING: Shop := Shop(INIT, Provider(map[], {}, map[]))

  ghost predicate ValidShopRun(r: ShopRun) {
    && |r.states| == |r.events| + 1 && r.states[0] == OPENING
    && forall i :: 0 <= i < |r.events| ==> Possible(r.states[i], r.events[i]) && r.states[i + 1] == After(r.states[i], r.events[i])
  }

  /** createLocal always runs as one step. */
  ghost predicate AtomicShopRun(r: ShopRun) {
    ValidShopRun(r)
    && forall i :: 0 <= i < |r.events| && r.events[i].Core? ==> AtomicLabel(r.states[i].core, r.events[i].move)
  }

  lemma {:induction false} ShopRunOK(r: ShopRun, i: nat)
    requires ValidShopRun(r) && i < |r.states|
    ensures ShopOK(r.states[i])
  {
    hide ShopOK, Possible, After;
    if i == 0 {
      OpeningOK();
    } else {
      ShopRunOK(r, i - 1);
      ShopStep(r.states[i - 1], r.events[i - 1]);
    }
  }

  lemma OpeningOK()
    ensures ShopOK(OPENING)
  {
    InvInit();
    hide Inv;
  }

  lemma NoTxShopStep(h: Shop, e: Event, t: nat)
    requires Possible(h, e) && (e.Core? ==> AtomicLabel(h.core, e.move)) && t in After(h, e).core.threads
    requires t in h.core.threads ==> !InTx(h.core.threads[t])
    ensures !InTx(After(h, e).core.threads[t])
  {
    hide Enabled, Apply, AtomicLabel, HonestAnswer, InTx;
    if e.Core? { NoTxStep(h.core, e.move, t); }
  }

  lemma {:induction false} NoTxInShop(r: ShopRun, i: nat, t: nat)
    requires AtomicShopRun(r) && i < |r.states| && t in r.states[i].core.threads
    ensures !InTx(r.states[i].core.threads[t])
  {
    hide Possible, After, InTx, AtomicLabel;
    if i > 0 {
      if t in r.states[i - 1].core.threads { NoTxInShop(r, i - 1, t); }
      NoTxShopStep(r.states[i - 1], r.events[i - 1], t);
    }
  }

  /** No attempt is committed on a paid order: what the atomic machine guarantees, and what the lock alone does not. */
  ghost predicate UnpaidCommits(r: ShopRun) {
    ValidShopRun(r)
    && forall i :: 0 <= i < |r.events| && r.events[i].Core? ==> CommitsOnUnpaid(r.states[i].core, r.events[i].move)
  }

  lemma AtomicCommitsUnpaid(r: ShopRun)
    requires AtomicShopRun(r)
    ensures UnpaidCommits(r)
  {
    hide Possible, After, AtomicLabel;
    forall i | 0 <= i < |r.events| && r.events[i].Core? ensures CommitsOnUnpaid(r.states[i].core, r.events[i].move) {
      var l := r.events[i].move;
      if l.Step? && l.t in r.states[i].core.threads { NoTxInShop(r, i, l.t); }
    }
  }

  lemma {:induction false} ShopSingleLive(r: ShopRun, i: nat)
    requires UnpaidCommits(r) && i < |r.states|
    ensures SingleLive(r.states[i].core.world.db)
  {
    hide SingleLive, ShopOK, Possible, After, CommitsOnUnpaid;
    if i == 0 {
      EmptyIsSingle();
    } else {
      ShopSingleLive(r, i - 1);
      ShopRunOK(r, i - 1);
      SingleLiveShopStep(r.states[i - 1], r.events[i - 1]);
    }
  }

  lemma SingleLiveShopStep(h: Shop, e: Event)
    requires ShopOK(h) && Possible(h, e) && SingleLive(h.core.world.db) && (e.Core? ==> CommitsOnUnpaid(h.core, e.move))
    ensures SingleLive(After(h, e).core.world.db)
  {
    hide SingleLive, Inv, Enabled, Apply, HonestAnswer, CommitsOnUnpaid;
    if e.Core? { SingleLiveStep(h.core, e.move); }
  }

  // ---- the results ----

  /** The provider holds a payment for this row that is not canceled. */
  ghost predicate LiveAtProvider(h: Shop, p: Uuid)
    requires p in h.core.world.db.payments && p in h.core.world.opOf && h.core.world.opOf[p] in h.core.world.db.operations
  {
    var key := h.core.world.db.operations[h.core.world.opOf[p]].providerKey;
    key in h.provider.made && h.provider.made[key] in h.provider.status
    && h.provider.status[h.provider.made[key]] != Canceled
  }

  /** A row is settled as canceled only if the provider has no live payment for it and never will. */
  lemma CanceledIsDead(h: Shop, p: Uuid)
    requires ShopOK(h) && p in h.core.world.db.payments && h.core.world.db.payments[p].status == Canceled
    ensures p in h.core.world.opOf && h.core.world.opOf[p] in h.core.world.db.operations && !LiveAtProvider(h, p)
  {
    hide Inv;
    AtPaymentOf(h.core, p);
    AtOperationOf(h.core, h.core.world.opOf[p]);
    hide ThreadsTrue;
  }

  /** A row says succeeded only if the provider's payment for exactly this row succeeded. */
  lemma SucceededIsPaid(r: ShopRun, i: nat, p: Uuid)
    requires ValidShopRun(r) && i < |r.states|
    requires p in r.states[i].core.world.db.payments && r.states[i].core.world.db.payments[p].status == Succeeded
    ensures var h := r.states[i];
            && p in h.core.world.opOf && h.core.world.opOf[p] in h.core.world.db.operations
            && var key := h.core.world.db.operations[h.core.world.opOf[p]].providerKey;
            key in h.provider.made && h.provider.made[key] in h.provider.status
            && h.provider.status[h.provider.made[key]] == Succeeded
            && h.core.world.db.payments[p].providerId == Some(h.provider.made[key])
  {
    hide Inv, ThreadsTrue, KeysOK;
    ShopRunOK(r, i);
    AtPaymentOf(r.states[i].core, p);
  }

  /** No order has two provider-side payments that are not canceled, as long as no attempt is committed on a paid order. */
  lemma NoDoubleChargeIfUnpaid(r: ShopRun, i: nat, p: Uuid, q: Uuid)
    requires UnpaidCommits(r) && i < |r.states|
    requires var db := r.states[i].core.world.db;
             p in db.payments && q in db.payments && p != q && db.payments[p].slot == db.payments[q].slot
    ensures var w := r.states[i].core.world;
            p in w.opOf && w.opOf[p] in w.db.operations && q in w.opOf && w.opOf[q] in w.db.operations
    ensures !(LiveAtProvider(r.states[i], p) && LiveAtProvider(r.states[i], q))
  {
    hide Inv, ShopOK, LiveAtProvider, CommitsOnUnpaid;
    ShopSingleLive(r, i);
    ShopRunOK(r, i);
    var h := r.states[i];
    RowHasOp(h, p);
    RowHasOp(h, q);
    if h.core.world.db.payments[p].status == Canceled { CanceledIsDead(h, p); } else { CanceledIsDead(h, q); }
  }

  /** With createLocal as one step, no order ever has two provider-side payments that are not canceled. */
  lemma NoDoubleCharge(r: ShopRun, i: nat, p: Uuid, q: Uuid)
    requires AtomicShopRun(r) && i < |r.states|
    requires var db := r.states[i].core.world.db;
             p in db.payments && q in db.payments && p != q && db.payments[p].slot == db.payments[q].slot
    ensures var w := r.states[i].core.world;
            p in w.opOf && w.opOf[p] in w.db.operations && q in w.opOf && w.opOf[q] in w.db.operations
    ensures !(LiveAtProvider(r.states[i], p) && LiveAtProvider(r.states[i], q))
  {
    hide AtomicShopRun, UnpaidCommits, LiveAtProvider;
    AtomicCommitsUnpaid(r);
    NoDoubleChargeIfUnpaid(r, i, p, q);
  }

  lemma RowHasOp(h: Shop, p: Uuid)
    requires ShopOK(h) && p in h.core.world.db.payments
    ensures p in h.core.world.opOf && h.core.world.opOf[p] in h.core.world.db.operations
  {
    hide Inv, ThreadsTrue, KeysOK, ReadingsTrue, BooksOK;
  }

  /** An honest provider's id is never refused by the unique index nor empty: the write of a created payment succeeds. */
  lemma HonestIdIsFree(r: ShopRun, i: nat, t: nat)
    requires ValidShopRun(r) && i < |r.states| && t in r.states[i].core.threads && r.states[i].core.threads[t].PersistCreated?
    ensures var th := r.states[i].core.threads[t];
            th.id != NO_ID && !ProviderIdTaken(r.states[i].core.world.db, th.local.payment, th.id)
  {
    hide WorldOK, ThreadOK, ReadingsTrue, KeysOK, RowsTrue;
    ShopRunOK(r, i);
    var h := r.states[i];
    var w, th := h.core.world, h.core.threads[t];
    assert ThreadTrue(w, h.provider, th);
    assert ThreadOK(w, th);
    OwnerKey(w, th);
    hide AllApart, ThreadsTrue;
    forall q | q in w.db.payments && w.db.payments[q].providerId == Some(th.id) ensures q == th.local.payment {
      SameKeySamePayment(h, q, th.local.payment);
    }
  }

  lemma SameKeySamePayment(h: Shop, p: Uuid, q: Uuid)
    requires ShopOK(h) && p in h.core.world.db.payments && h.core.world.db.payments[p].providerId.Some?
    requires q in h.core.world.opOf && h.core.world.opOf[q] in h.core.world.db.operations
    requires var key := h.core.world.db.operations[h.core.world.opOf[q]].providerKey;
             key in h.provider.made && Some(h.provider.made[key]) == h.core.world.db.payments[p].providerId
    ensures p == q
  {
    hide Inv, ThreadsTrue, KeysOK, ReadingsTrue;
    var w := h.core.world;
    assert RowTrue(w, h.provider, p);
    AtPaymentOf(h.core, p);
    AtOperationOf(h.core, w.opOf[p]);
    AtOperationOf(h.core, w.opOf[q]);
    OpOfOp(h.core, q);
  }

  lemma OpOfOp(s: State, q: Uuid)
    requires Inv(s) && q in s.world.opOf
    ensures q in s.world.db.payments && s.world.db.operations[s.world.opOf[q]].payment == q
  {
    hide ThreadOK;
    assert q in s.world.db.payments;
    AtPaymentOf(s, q);
  }

  /** Everything the provider ever made belongs to a committed payment row, through the key of its operation. */
  lemma NothingUntracked(r: ShopRun, i: nat, key: Uuid)
    requires ValidShopRun(r) && i < |r.states| && key in r.states[i].provider.made
    ensures var w := r.states[i].core.world;
            exists p :: p in w.db.payments && p in w.opOf && w.opOf[p] in w.db.operations
                        && w.db.operations[w.opOf[p]].providerKey == key
  {
    hide ThreadsTrue, RowsTrue, ReadingsTrue, WorldOK;
    ShopRunOK(r, i);
    var w := r.states[i].core.world;
    Domains(w);
    assert KeyKnown(w, key);
    assert w.issued[key] in w.db.payments;
  }
}
