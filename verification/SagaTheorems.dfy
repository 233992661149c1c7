/** What the saga leaves behind over whole runs: a finished checkout has made exactly the
    calls its reply stands for, and who has canceled an order is known. */
module SagaTheorems {
  import opened Domain
  import opened Tables
  import opened WebhookProgram
  import opened CheckoutProgram
  import opened Protocol
  import opened Rows
  import opened Invariants
  import opened Completions
  import opened Moving
  import opened TableInvariants
  import opened Provenance
  import opened Runs
  import ThreadInvariants

  // ---- Calls -------------------------------------------------------------------------

  /** `n` failed attempts to store the session. */
  function Failures(sessionId: string, n: nat): seq<Call> {
    seq(n, _ => PersistTry(sessionId, false))
  }

  function AfterStripe(x: StripeSession, n: nat): seq<Call> {
    [OrderInserted, StripeCreate(Some(x))] + Failures(x.id, n)
  }

  function Undone(x: StripeSession, n: nat): seq<Call> {
    AfterStripe(x, n) + [ExpireTry(x.id)]
  }

  /** The calls a checkout can have made, by where it is. */
  ghost predicate CallsOk(k: Cart) {
    match k.pc
    case CreateSession(_) => k.calls == [OrderInserted]
    case Persist(_, n, x) => n < 3 && k.calls == AfterStripe(x, n)
    case ExpireSession(_, x) => exists n :: GivesUp(n, k.cut) && k.calls == AfterStripe(x, n)
    case Cancel(_, reason) =>
      || (reason == REASON_STRIPE && k.calls == [OrderInserted, StripeCreate(None)])
      || (reason == REASON_PERSIST && exists x, n :: GivesUp(n, k.cut) && k.calls == Undone(x, n))
    case Finished(reply, _) => FinalCallsOk(k.request.mode, reply, k.calls)
    case Died => true
    case _ => k.calls == []
  }

  /** The checkout gives up storing its session after three failed writes, or after fewer
      when its context is over. */
  predicate GivesUp(n: nat, cut: bool) {
    1 <= n <= 3 && (n == 3 || cut)
  }

  /** The reply shows the session: its address for hosted pages, its secret otherwise. */
  predicate ShowsStripe(r: CheckoutResult, mode: string, x: StripeSession) {
    && r.sessionId == x.id
    && r.url == (if mode == "hosted" then x.url else "")
    && r.clientSecret == (if mode == "hosted" then "" else x.clientSecret)
  }

  /** Success: at most two failed writes of the session Stripe returned, then one that
      worked, and a reply that shows that session. Failure at Stripe: cancellation
      attempted. Failure to store: three failed writes, then expiry of that very session
      and cancellation attempted, or fewer, in which case the cancellation fails as well.
      Any other refusal: nothing was inserted. */
  ghost predicate FinalCallsOk(mode: string, reply: Reply, calls: seq<Call>) {
    match reply
    case Created(r) =>
      exists x, n :: 0 <= n < 3 && calls == AfterStripe(x, n) + [PersistTry(x.id, true)] && ShowsStripe(r, mode, x)
    case Replayed(_) => calls == []
    case Refused(StripeFailed) => exists ok :: calls == [OrderInserted, StripeCreate(None), CancelTry(ok)]
    case Refused(PersistFailed) => exists x, n, ok :: GivesUp(n, !ok) && calls == Undone(x, n) + [CancelTry(ok)]
    case Refused(_) => calls == []
  }

  lemma ReasonsDiffer()
    ensures REASON_STRIPE != REASON_PERSIST
  {
    assert REASON_STRIPE[0] == 's' && REASON_PERSIST[0] == 'p';
  }

  /** Between two moments, up to three attempts to store the session, the last of which may
      have worked. */
  ghost predicate PersistTried(before: seq<Call>, sessionId: string, stored: bool, cut: bool, after: seq<Call>) {
    if stored then exists n :: 0 <= n < 3 && after == before + Failures(sessionId, n) + [PersistTry(sessionId, true)]
    else exists n :: GivesUp(n, cut) && after == before + Failures(sessionId, n)
  }

  lemma FailOnceMore(before: seq<Call>, sessionId: string, n: nat)
    ensures before + Failures(sessionId, n) + [PersistTry(sessionId, false)] == before + Failures(sessionId, n + 1)
  {
  }

  lemma OneMoreFailure(x: StripeSession, n: nat)
    ensures AfterStripe(x, n) + [PersistTry(x.id, false)] == AfterStripe(x, n + 1)
  {
  }

  lemma PersistCalls(db: Db, k: Cart, c: CartChoice)
    requires k.pc.Persist? && CallsOk(k)
    ensures CallsOk(CartNext(db, k, c))
  {
    var x := k.pc.session;
    OneMoreFailure(x, k.pc.attempt);
    var k' := CartNext(db, k, c);
    if k'.pc.Finished? {
      assert k'.calls == AfterStripe(x, k.pc.attempt) + [PersistTry(x.id, true)];
      assert ShowsStripe(k'.pc.reply.result, k.request.mode, x);
    } else {
      assert k'.calls == AfterStripe(x, k.pc.attempt + 1);
      assert k'.pc.ExpireSession? ==> GivesUp(k.pc.attempt + 1, k'.cut);
    }
  }

  lemma ExpireCalls(db: Db, k: Cart, c: CartChoice)
    requires k.pc.ExpireSession? && CallsOk(k)
    ensures CallsOk(CartNext(db, k, c))
  {
    var x := k.pc.session;
    var n :| GivesUp(n, k.cut) && k.calls == AfterStripe(x, n);
    assert CartNext(db, k, c).calls == Undone(x, n);
  }

  lemma CancelCalls(db: Db, k: Cart, c: CartChoice)
    requires k.pc.Cancel? && CallsOk(k) && CartEnabled(db, k, c)
    ensures CallsOk(CartNext(db, k, c))
  {
    ReasonsDiffer();
    var k' := CartNext(db, k, c);
    if k.pc.reason == REASON_STRIPE {
      assert k'.calls == [OrderInserted, StripeCreate(None), CancelTry(!c.Fault?)];
    } else {
      var x, n :| GivesUp(n, k.cut) && k.calls == Undone(x, n);
      assert GivesUp(n, c.Fault?);
      assert k'.calls == Undone(x, n) + [CancelTry(!c.Fault?)];
    }
  }

  lemma CallsKept(db: Db, k: Cart, c: CartChoice)
    requires CallsOk(k) && CartEnabled(db, k, c)
    ensures CallsOk(CartNext(db, k, c))
  {
    match k.pc {
      case Persist(_, _, _) => PersistCalls(db, k, c);
      case Cancel(_, _) => CancelCalls(db, k, c);
      case ExpireSession(_, _) => ExpireCalls(db, k, c);
      case CreateSession(_) =>
        if c.StripeReply? {
          assert AfterStripe(c.session, 0) == [OrderInserted, StripeCreate(Some(c.session))];
        }
      case _ =>
    }
  }

  /** A running checkout has not canceled anything yet. */
  lemma RunningHasNotCanceled(k: Cart)
    requires CallsOk(k) && CartRunning(k)
    ensures CancelTry(true) !in k.calls
  {
  }

  lemma CallsGrow(db: Db, k: Cart, c: CartChoice)
    ensures k.calls <= CartNext(db, k, c).calls
  {
  }

  lemma OnlyCancelCancels(db: Db, k: Cart, c: CartChoice)
    requires CallsOk(k) && CartEnabled(db, k, c) && !k.pc.Cancel?
    ensures CancelTry(true) !in CartNext(db, k, c).calls
  {
    RunningHasNotCanceled(k);
    NewCall(db, k, c);
  }

  predicate NewCallOk(k: Cart, c: CartChoice, x: Call) {
    x.CancelTry? ==> k.pc.Cancel? && x.ok != c.Fault?
  }

  lemma NewCall(db: Db, k: Cart, c: CartChoice)
    requires CartEnabled(db, k, c)
    ensures var k' := CartNext(db, k, c);
            || k'.calls == k.calls
            || exists x :: k'.calls == k.calls + [x] && NewCallOk(k, c, x)
  {
  }

  // ---- What a checkout knows of its order --------------------------------------------

  /** The checkout has failed after its order was inserted. */
  predicate CheckoutFailed(k: Cart) {
    k.pc.Finished? && k.pc.reply.Refused? && (k.pc.reply.error.StripeFailed? || k.pc.reply.error.PersistFailed?)
  }

  /** A cancellation that worked left the order canceled and its key released. */
  ghost predicate CancelLanded(orders: map<OrderId, Order>, k: Cart) {
    CancelTry(true) in k.calls ==>
      && k.mine.Some? && k.mine.value in orders
      && orders[k.mine.value].status == Canceled && orders[k.mine.value].key == None
  }

  /** The order recorded as the checkout's own is one it has inserted. */
  ghost predicate MineOk(born: map<OrderId, Birth>, t: Tid, k: Cart) {
    && (k.calls == [] ==> k.mine == None)
    && (k.mine.Some? ==> k.mine.value in born && born[k.mine.value].creator == t)
  }

  /** The order of a failed checkout has no session. */
  ghost predicate LeftBehind(orders: map<OrderId, Order>, k: Cart) {
    CheckoutFailed(k) ==> k.mine.Some? && k.mine.value in orders && orders[k.mine.value].sessionId == None
  }

  ghost predicate SagaOk(s: State, t: Tid, k: Cart) {
    && CallsOk(k) && CancelLanded(s.db.orders, k) && MineOk(s.born, t, k) && LeftBehind(s.db.orders, k)
    && (k.cut ==> CancelTry(true) !in k.calls)
  }

  ghost predicate SagasOk(s: State) {
    forall t :: t in s.carts ==> SagaOk(s, t, s.carts[t])
  }

  lemma SagaStable(s: State, s': State, actor: Option<Tid>, t: Tid, k: Cart)
    requires Moves(s, s', actor) && actor != Some(t) && SagaOk(s, t, k)
    ensures SagaOk(s', t, k)
  {
    if CheckoutFailed(k) {
      assert RowMoves(s.db.orders[k.mine.value], s'.db.orders[k.mine.value], false, s.db.now);
    }
  }

  lemma CancelStep(s: State, s': State, t: Tid, k: Cart, c: CartChoice)
    requires OrdersOk(s) && CartOk(s, t, k) && SagaOk(s, t, k) && CartEnabled(s.db, k, c) && k.pc.Cancel?
    requires s'.db == CartDb(s.db, k, c) && s'.born == s.born
    ensures SagaOk(s', t, CartNext(s.db, k, c))
  {
    CancelCalls(s.db, k, c);
    RunningHasNotCanceled(k);
  }

  lemma OtherStep(s: State, s': State, t: Tid, k: Cart, c: CartChoice)
    requires CartOk(s, t, k) && SagaOk(s, t, k) && CartEnabled(s.db, k, c) && !k.pc.Cancel?
    requires t in s.carts && s.carts[t] == k && s'.born == BornAfter(s, t, c) && BirthsKept(s, s')
    ensures SagaOk(s', t, CartNext(s.db, k, c))
  {
    CallsKept(s.db, k, c);
    OnlyCancelCancels(s.db, k, c);
    NotFailedYet(s.db, k, c);
    MineStep(s, s', t, k, c);
  }

  lemma NotFailedYet(db: Db, k: Cart, c: CartChoice)
    requires CartEnabled(db, k, c) && !k.pc.Cancel?
    ensures !CheckoutFailed(CartNext(db, k, c))
  {
  }

  lemma MineStep(s: State, s': State, t: Tid, k: Cart, c: CartChoice)
    requires MineOk(s.born, t, k) && CartEnabled(s.db, k, c)
    requires t in s.carts && s.carts[t] == k && s'.born == BornAfter(s, t, c) && BirthsKept(s, s')
    ensures MineOk(s'.born, t, CartNext(s.db, k, c))
  {
    ThreadInvariants.SameRequest(s.db, k, c);
    CallsGrow(s.db, k, c);
  }

  lemma ActorSaga(s: State, t: Tid, c: CartChoice)
    requires OrdersOk(s) && EventsOk(s) && CartsOk(s) && Enabled(s, CartStep(t, c))
    requires t in s.carts && SagaOk(s, t, s.carts[t])
    ensures t in Step(s, CartStep(t, c)).carts && SagaOk(Step(s, CartStep(t, c)), t, Step(s, CartStep(t, c)).carts[t])
  {
    var s', k := Step(s, CartStep(t, c)), s.carts[t];
    CartStepShape(s, t, c);
    CartKnown(s, t);
    if k.pc.Cancel? {
      CancelStep(s, s', t, k, c);
    } else {
      BirthsGrow(s, t, c);
      OtherStep(s, s', t, k, c);
    }
  }

  lemma BystanderSaga(s: State, s': State, actor: Option<Tid>, t: Tid, k: Cart)
    requires SagasOk(s) && Moves(s, s', actor) && actor != Some(t) && Bystander(s, t, k)
    ensures SagaOk(s', t, k)
  {
    if t in s.carts {
      SagaStable(s, s', actor, t, s.carts[t]);
      if CartRunning(s.carts[t]) {
        RunningHasNotCanceled(s.carts[t]);
      }
    }
  }

  lemma SagasKept(s: State, a: Action)
    requires OrdersOk(s) && EventsOk(s) && HooksOk(s) && CartsOk(s) && SagasOk(s) && Enabled(s, a)
    ensures SagasOk(Step(s, a))
  {
    var s' := Step(s, a);
    StepMoves(s, a);
    forall t | t in s'.carts
      ensures SagaOk(s', t, s'.carts[t])
    {
      if a.CartStep? && a.t == t {
        ActorSaga(s, t, a.cartChoice);
      } else {
        BystanderCarts(s, a, t);
        BystanderSaga(s, s', Actor(a), t, s'.carts[t]);
      }
    }
  }

  lemma {:induction false} RunSagas(tr: seq<State>, acts: seq<Action>, i: nat)
    requires Run(tr, acts) && i < |tr|
    ensures SagasOk(tr[i])
  {
    if i > 0 {
      RunSagas(tr, acts, i - 1);
      RunInv(tr, acts, i - 1);
      assert StepAt(tr, acts, i - 1);
      SagasKept(tr[i - 1], acts[i - 1]);
    }
  }

  // ---- Who created an order ----------------------------------------------------------

  /** Every order carries the key and the hash of the request that created it, and is the
      only one its checkout has created. */
  ghost predicate CreatorsOk(s: State) {
    forall id :: id in s.born ==> CreatorOk(s, id, s.born[id])
  }

  ghost predicate CreatorOk(s: State, id: OrderId, b: Birth) {
    && b.creator in s.carts && s.carts[b.creator].mine == Some(id)
    && ExtractRequestHash(b.row.metadata) == s.carts[b.creator].hash
    && b.row.metadata == s.carts[b.creator].request.metadata["_request_body_hash" := s.carts[b.creator].hash]
    && b.row.key == NullIfEmpty(s.carts[b.creator].key)
  }

  lemma OldCreator(s: State, s': State, t: Tid, k': Cart, id: OrderId)
    requires CreatorsOk(s) && id in s.born && s'.carts == s.carts[t := k'] && t in s.carts
    requires s.born[id].creator == t ==>
               k'.mine == s.carts[t].mine && k'.hash == s.carts[t].hash && k'.key == s.carts[t].key
               && k'.request == s.carts[t].request
    ensures CreatorOk(s', id, s.born[id])
  {
    assert CreatorOk(s, id, s.born[id]);
  }

  lemma NewCreator(s: State, s': State, t: Tid, c: CartChoice, id: OrderId)
    requires t in s.carts && id in BornAfter(s, t, c) && (id !in s.born || BornAfter(s, t, c)[id] != s.born[id])
    requires s'.carts == s.carts[t := CartNext(s.db, s.carts[t], c)]
    ensures CreatorOk(s', id, BornAfter(s, t, c)[id])
  {
    InsertedMine(s, t, c);
    ThreadInvariants.SameRequest(s.db, s.carts[t], c);
    ThreadInvariants.RowForHash(s.carts[t], s.carts[t].pc.draft, s.db.now);
  }

  lemma MineStays(s: State, t: Tid, c: CartChoice, id: OrderId)
    requires CreatorsOk(s) && t in s.carts && CallsOk(s.carts[t]) && MineOk(s.born, t, s.carts[t])
    requires id in s.born && s.born[id].creator == t
    ensures CartNext(s.db, s.carts[t], c).mine == s.carts[t].mine
  {
    assert CreatorOk(s, id, s.born[id]);
    HasInserted(s.db, s.carts[t], c);
  }

  lemma CreatorsKeptByCart(s: State, t: Tid, c: CartChoice)
    requires CreatorsOk(s) && OrdersOk(s) && Enabled(s, CartStep(t, c))
    requires CallsOk(s.carts[t]) && MineOk(s.born, t, s.carts[t])
    ensures CreatorsOk(Step(s, CartStep(t, c)))
  {
    var s', k' := Step(s, CartStep(t, c)), CartNext(s.db, s.carts[t], c);
    CartStepShape(s, t, c);
    ThreadInvariants.SameRequest(s.db, s.carts[t], c);
    forall id | id in s'.born
      ensures CreatorOk(s', id, s'.born[id])
    {
      if id in s.born && s'.born[id] == s.born[id] {
        if s.born[id].creator == t {
          MineStays(s, t, c, id);
        }
        OldCreator(s, s', t, k', id);
      } else {
        NewCreator(s, s', t, c, id);
      }
    }
  }

  /** A checkout that has an order of its own does not insert another. */
  lemma HasInserted(db: Db, k: Cart, c: CartChoice)
    requires CallsOk(k) && k.mine.Some? && (k.calls == [] ==> k.mine == None)
    ensures CartNext(db, k, c).mine == k.mine
  {
    ThreadInvariants.SameRequest(db, k, c);
  }

  lemma InsertedMine(s: State, t: Tid, c: CartChoice)
    requires t in s.carts && Inserts(s, t, c)
    ensures var d := s.carts[t].pc.draft;
            && CartNext(s.db, s.carts[t], c).mine == Some(d.id)
            && BornAfter(s, t, c) == s.born[d.id := Birth(RowFor(s.carts[t], d, s.db.now), t)]
  {
  }

  lemma BystanderCreator(s: State, s': State, id: OrderId, b: Birth)
    requires CreatorOk(s, id, b) && b.creator in s'.carts && Bystander(s, b.creator, s'.carts[b.creator])
    ensures CreatorOk(s', id, b)
  {
  }

  lemma CartsStay(s: State, a: Action, t: Tid)
    requires Enabled(s, a) && t in s.carts
    ensures t in Step(s, a).carts
  {
  }

  lemma CreatorsKept(s: State, a: Action)
    requires CreatorsOk(s) && OrdersOk(s) && SagasOk(s) && Enabled(s, a)
    ensures CreatorsOk(Step(s, a))
  {
    var s' := Step(s, a);
    if a.CartStep? {
      assert SagaOk(s, a.t, s.carts[a.t]);
      CreatorsKeptByCart(s, a.t, a.cartChoice);
    } else {
      forall id | id in s'.born
        ensures CreatorOk(s', id, s'.born[id])
      {
        QuietBirths(s, a);
        var t := s.born[id].creator;
        assert CreatorOk(s, id, s.born[id]);
        CartsStay(s, a, t);
        BystanderCarts(s, a, t);
        BystanderCreator(s, s', id, s.born[id]);
      }
    }
  }

  lemma QuietBirths(s: State, a: Action)
    requires Enabled(s, a) && !a.CartStep?
    ensures Step(s, a).born == s.born
  {
  }

  lemma {:induction false} RunCreators(tr: seq<State>, acts: seq<Action>, i: nat)
    requires Run(tr, acts) && i < |tr|
    ensures CreatorsOk(tr[i])
  {
    if i > 0 {
      RunCreators(tr, acts, i - 1);
      RunSagas(tr, acts, i - 1);
      RunOrders(tr, acts, i - 1);
      assert StepAt(tr, acts, i - 1);
      CreatorsKept(tr[i - 1], acts[i - 1]);
    }
  }

  // ---- Who cancels an order ----------------------------------------------------------

  /** Step `m` is a sweep that finds the order stale. */
  ghost predicate SweptAt(tr: seq<State>, acts: seq<Action>, m: nat, id: OrderId)
    requires m < |acts| && |tr| == |acts| + 1
  {
    acts[m] == Sweep && id in tr[m].db.orders && StalePending(tr[m].db.orders[id], tr[m].db.now)
  }

  ghost predicate SweptBefore(tr: seq<State>, acts: seq<Action>, i: nat, id: OrderId)
    requires i < |tr| && |tr| == |acts| + 1
  {
    exists m :: 0 <= m < i && SweptAt(tr, acts, m, id)
  }

  lemma CartCancels(db: Db, k: Cart, c: CartChoice, id: OrderId)
    requires CartEnabled(db, k, c) && id in CartDb(db, k, c).orders && CartDb(db, k, c).orders[id].status == Canceled
    requires id in db.orders ==> db.orders[id].status != Canceled
    ensures k.pc.Cancel? && k.pc.draft.id == id && CancelTry(true) in CartNext(db, k, c).calls
  {
    CartDbCases(db, k, c);
    if k.pc.InsertOrder? && CreateOrderWithItems(db, k.pc.draft.id, RowFor(k, k.pc.draft, db.now)).Ok? {
      InsertEffect(db, k.pc.draft.id, RowFor(k, k.pc.draft, db.now));
    }
    if k.pc.Cancel? {
      assert CartNext(db, k, c).calls == k.calls + [CancelTry(!c.Fault?)];
    }
  }

  lemma HookNeverCancels(db: Db, p: Payload, h: Hook, c: HookChoice, id: OrderId)
    requires HookOk(db, p, h) && id in HookDb(db, p, h, c).orders && HookDb(db, p, h, c).orders[id].status == Canceled
    ensures id in db.orders && db.orders[id].status == Canceled
  {
    HookDomain(db, p, h, c);
    if HookDb(db, p, h, c).orders[id].status != db.orders[id].status {
      HookStatus(db, p, h, c, id);
      UpdateChanges(db.orders, h.pc.completion, id);
      CompletionFacts(db.orders, h.event, p, h.pc.completion, h.pc.builtAt);
    }
  }

  /** Only a sweep, or the creator's own cancellation, cancels. */
  lemma StepCancels(s: State, a: Action, id: OrderId)
    requires HooksOk(s) && CartsOk(s) && Enabled(s, a)
    requires id in Step(s, a).db.orders && Step(s, a).db.orders[id].status == Canceled
    requires id in s.db.orders ==> s.db.orders[id].status != Canceled
    ensures (a == Sweep && id in s.db.orders && StalePending(s.db.orders[id], s.db.now)) || CanceledByCreator(s, a, id)
  {
    match a {
      case HookStep(t, c) =>
        HookStepShape(s, t, c);
        HookKnown(s, t);
        HookNeverCancels(s.db, s.payloads[s.hooks[t].event], s.hooks[t], c, id);
      case CartStep(t, c) =>
        CartStepShape(s, t, c);
        CartKnown(s, t);
        CartCancels(s.db, s.carts[t], c, id);
      case _ =>
    }
  }

  ghost predicate CanceledByCreator(s: State, a: Action, id: OrderId)
    requires Enabled(s, a)
  {
    && a.CartStep? && id in s.born && s.born[id].creator == a.t
    && a.t in Step(s, a).carts && CancelTry(true) in Step(s, a).carts[a.t].calls
  }

  /** What has been called stays on record. */
  lemma CancellationStays(s: State, a: Action, t: Tid)
    requires Enabled(s, a) && t in s.carts && CancelTry(true) in s.carts[t].calls
    ensures t in Step(s, a).carts && CancelTry(true) in Step(s, a).carts[t].calls
  {
    CartsStay(s, a, t);
    if a.CartStep? && a.t == t {
      CartStepShape(s, t, a.cartChoice);
      CallsGrow(s.db, s.carts[t], a.cartChoice);
    } else {
      BystanderCarts(s, a, t);
    }
  }

  /** The creator of the order has canceled it. */
  ghost predicate CreatorCanceled(s: State, id: OrderId) {
    id in s.born && s.born[id].creator in s.carts && CancelTry(true) in s.carts[s.born[id].creator].calls
  }

  ghost predicate IsCanceled(s: State, id: OrderId) {
    id in s.db.orders && s.db.orders[id].status == Canceled
  }

  lemma CreatorStays(s: State, a: Action, id: OrderId)
    requires OrdersOk(s) && EventsOk(s) && HooksOk(s) && CartsOk(s) && Enabled(s, a) && CreatorCanceled(s, id)
    ensures CreatorCanceled(Step(s, a), id)
  {
    StepMoves(s, a);
    CancellationStays(s, a, s.born[id].creator);
  }

  lemma CreatorCancels(s: State, a: Action, id: OrderId)
    requires OrdersOk(s) && EventsOk(s) && HooksOk(s) && CartsOk(s) && Enabled(s, a) && CanceledByCreator(s, a, id)
    ensures CreatorCanceled(Step(s, a), id)
  {
    StepMoves(s, a);
  }

  /** Where a canceled row can come from, one step back. */
  lemma CancelTrace(s: State, a: Action, id: OrderId)
    requires OrdersOk(s) && EventsOk(s) && HooksOk(s) && CartsOk(s) && Enabled(s, a) && IsCanceled(Step(s, a), id)
    ensures || IsCanceled(s, id)
            || (a == Sweep && id in s.db.orders && StalePending(s.db.orders[id], s.db.now))
            || CreatorCanceled(Step(s, a), id)
  {
    if !IsCanceled(s, id) {
      StepCancels(s, a, id);
      if CanceledByCreator(s, a, id) {
        CreatorCancels(s, a, id);
      }
    }
  }

  lemma {:induction false} CanceledHasCause(tr: seq<State>, acts: seq<Action>, i: nat, id: OrderId)
    requires Run(tr, acts) && i < |tr| && IsCanceled(tr[i], id)
    ensures SweptBefore(tr, acts, i, id) || CreatorCanceled(tr[i], id)
  {
    if i > 0 {
      RunInv(tr, acts, i - 1);
      assert StepAt(tr, acts, i - 1);
      CancelTrace(tr[i - 1], acts[i - 1], id);
      if IsCanceled(tr[i - 1], id) {
        CanceledHasCause(tr, acts, i - 1, id);
        if CreatorCanceled(tr[i - 1], id) {
          CreatorStays(tr[i - 1], acts[i - 1], id);
        }
      } else if !CreatorCanceled(tr[i], id) {
        assert SweptAt(tr, acts, i - 1, id);
      }
    }
  }

  lemma SweptIsCanceled(tr: seq<State>, acts: seq<Action>, i: nat, id: OrderId)
    requires Run(tr, acts) && i < |tr| && SweptBefore(tr, acts, i, id)
    ensures id in tr[i].db.orders && tr[i].db.orders[id].status == Canceled
  {
    var m :| 0 <= m < i && SweptAt(tr, acts, m, id);
    assert StepAt(tr, acts, m);
    OrderEvolves(tr, acts, m + 1, i, id);
  }

  lemma CreatorCanceledState(s: State, id: OrderId)
    requires CreatorsOk(s) && SagasOk(s) && CreatorCanceled(s, id)
    ensures id in s.db.orders && s.db.orders[id].status == Canceled
  {
    assert CreatorOk(s, id, s.born[id]) && SagaOk(s, s.born[id].creator, s.carts[s.born[id].creator]);
  }

  /** An order is canceled if and only if a sweep has found it stale or the checkout that
      created it has canceled it. No webhook and no other checkout ever does. */
  lemma CanceledExactly(tr: seq<State>, acts: seq<Action>, i: nat, id: OrderId)
    requires Run(tr, acts) && i < |tr| && id in tr[i].db.orders
    ensures tr[i].db.orders[id].status == Canceled <==> SweptBefore(tr, acts, i, id) || CreatorCanceled(tr[i], id)
  {
    if SweptBefore(tr, acts, i, id) {
      SweptIsCanceled(tr, acts, i, id);
    } else if CreatorCanceled(tr[i], id) {
      RunCreators(tr, acts, i);
      RunSagas(tr, acts, i);
      CreatorCanceledState(tr[i], id);
    } else if tr[i].db.orders[id].status == Canceled {
      CanceledHasCause(tr, acts, i, id);
    }
  }

  // ---- What a finished checkout leaves behind ----------------------------------------

  /** The checkout has answered with a session. */
  predicate Succeeded(k: Cart) {
    k.pc.Finished? && !k.pc.reply.Refused?
  }

  lemma ReplyShows(s: State, t: Tid)
    requires CartsOk(s) && t in s.carts && Succeeded(s.carts[t])
    ensures var r := s.carts[t].pc.reply.result;
            AnswersFor(s, s.carts[t], r.orderId) && Shows(r, s.db.orders[r.orderId])
  {
    assert CartOk(s, t, s.carts[t]);
  }

  /** What a finished checkout leaves behind. */
  ghost predicate OutcomeHolds(s: State, k: Cart) {
    && CancelLanded(s.db.orders, k)
    && (k.pc.Finished? && k.pc.reply.Created? ==>
          var r := k.pc.reply.result;
          r.orderId in s.db.orders && s.db.orders[r.orderId].sessionId == Some(r.sessionId))
  }

  lemma OutcomeState(s: State, t: Tid)
    requires CartsOk(s) && SagasOk(s) && t in s.carts
    ensures OutcomeHolds(s, s.carts[t])
  {
    if Succeeded(s.carts[t]) {
      ReplyShows(s, t);
    }
  }

  lemma OutcomeEvolves(tr: seq<State>, acts: seq<Action>, i: nat, j: nat, k: Cart)
    requires Run(tr, acts) && i <= j < |tr| && OutcomeHolds(tr[i], k)
    ensures OutcomeHolds(tr[j], k)
  {
    if k.mine.Some? && k.mine.value in tr[i].db.orders {
      OrderEvolves(tr, acts, i, j, k.mine.value);
    }
    if k.pc.Finished? && k.pc.reply.Created? {
      OrderEvolves(tr, acts, i, j, k.pc.reply.result.orderId);
    }
  }

  /** Whatever fails along the way, a finished checkout has made exactly the calls its
      reply stands for. After a success the row holds the returned session, now and in
      every later state; after a cancellation that worked, the row is canceled and its key
      free, now and in every later state. */
  lemma SagaOutcome(tr: seq<State>, acts: seq<Action>, i: nat, j: nat, t: Tid)
    requires Run(tr, acts) && i <= j < |tr| && t in tr[i].carts && tr[i].carts[t].pc.Finished?
    ensures FinalCallsOk(tr[i].carts[t].request.mode, tr[i].carts[t].pc.reply, tr[i].carts[t].calls)
    ensures OutcomeHolds(tr[j], tr[i].carts[t])
  {
    RunSagas(tr, acts, i);
    assert SagaOk(tr[i], t, tr[i].carts[t]);
    RunInv(tr, acts, i);
    OutcomeState(tr[i], t);
    OutcomeEvolves(tr, acts, i, j, tr[i].carts[t]);
  }

  lemma FailedState(s: State, t: Tid)
    requires OrdersOk(s) && SagasOk(s) && CreatorsOk(s) && t in s.carts && CheckoutFailed(s.carts[t])
    ensures var k := s.carts[t];
            && k.mine.Some? && k.mine.value in s.db.orders && k.mine.value in s.born
            && s.born[k.mine.value].creator == t
            && s.db.orders[k.mine.value].sessionId == None
            && (s.db.orders[k.mine.value].status != Canceled ==>
                  s.db.orders[k.mine.value].status == Pending && s.db.orders[k.mine.value].key == NullIfEmpty(k.key))
            && (k.cut ==> CancelTry(true) !in k.calls)
  {
    var k := s.carts[t];
    assert SagaOk(s, t, k);
    var id := k.mine.value;
    assert CreatorOk(s, id, s.born[id]);
    assert OrderOk(s.born[id], s.db.orders[id]);
  }

  /** A checkout that failed after inserting its order leaves no session on it. If its
      cancellation worked, the key is free. If not, as always when its context was over by
      then, the order stays pending and keeps the key until, and only until, a sweep. */
  lemma FailedCheckoutExactly(tr: seq<State>, acts: seq<Action>, i: nat, t: Tid)
    requires Run(tr, acts) && i < |tr| && t in tr[i].carts && CheckoutFailed(tr[i].carts[t])
    ensures var s, k := tr[i], tr[i].carts[t];
            && k.mine.Some? && k.mine.value in s.db.orders
            && var row := s.db.orders[k.mine.value];
               && row.sessionId == None
               && (CancelTry(true) in k.calls ==> row.status == Canceled && row.key == None)
               && (CancelTry(true) !in k.calls ==> (row.status == Canceled <==> SweptBefore(tr, acts, i, k.mine.value)))
               && (row.status != Canceled ==> row.status == Pending && row.key == NullIfEmpty(k.key))
               && (k.cut ==> CancelTry(true) !in k.calls)
  {
    RunSagas(tr, acts, i);
    RunCreators(tr, acts, i);
    RunOrders(tr, acts, i);
    FailedState(tr[i], t);
    CanceledExactly(tr, acts, i, tr[i].carts[t].mine.value);
    assert SagaOk(tr[i], t, tr[i].carts[t]);
  }
}
