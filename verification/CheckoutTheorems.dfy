/** What holds of checkouts over whole runs: replies agree, keys come free, and a failed
    saga has compensated. */
module CheckoutTheorems {
  import opened Domain
  import opened Canonical
  import opened Tables
  import opened WebhookProgram
  import opened CheckoutProgram
  import opened Protocol
  import opened Rows
  import opened Invariants
  import opened Moving
  import opened TableInvariants
  import opened Runs
  import opened SagaTheorems
  import OrderTheorems

  // ---- Replay agreement ------------------------------------------------------------

  /** Everything in a reply but its access token, which is renewed on every replay. */
  function Shown(r: CheckoutResult): CheckoutResult {
    r.(token := "")
  }

  lemma SameRowSameReply(a: CheckoutResult, b: CheckoutResult, row: Order)
    requires Shows(a, row) && Shows(b, row) && a.orderId == b.orderId
    ensures Shown(a) == Shown(b)
  {
  }

  lemma AgreementState(s: State, t: Tid, u: Tid)
    requires OrdersOk(s) && CartsOk(s) && KeysUnique(s.db.orders)
    requires t in s.carts && u in s.carts && Succeeded(s.carts[t]) && Succeeded(s.carts[u])
    requires s.carts[t].key == s.carts[u].key && s.carts[t].key != ""
    requires s.carts[t].pc.reply.result.orderId in s.db.orders && s.carts[u].pc.reply.result.orderId in s.db.orders
    requires s.db.orders[s.carts[t].pc.reply.result.orderId].status != Canceled
    requires s.db.orders[s.carts[u].pc.reply.result.orderId].status != Canceled
    ensures Shown(s.carts[t].pc.reply.result) == Shown(s.carts[u].pc.reply.result)
    ensures s.carts[t].hash == s.carts[u].hash
  {
    ReplyShows(s, t);
    ReplyShows(s, u);
    var a, b := s.carts[t].pc.reply.result, s.carts[u].pc.reply.result;
    OrderTheorems.LiveHolder(s, a.orderId, s.carts[t].key);
    OrderTheorems.LiveHolder(s, b.orderId, s.carts[t].key);
    SameRowSameReply(a, b, s.db.orders[a.orderId]);
  }

  /** Any two successful replies for one key show the same order, number, session, URL and
      client secret, and answer equal requests, as long as neither order was canceled. */
  lemma RepliesAgree(tr: seq<State>, acts: seq<Action>, i: nat, t: Tid, u: Tid)
    requires Run(tr, acts) && i < |tr| && t in tr[i].carts && u in tr[i].carts
    requires Succeeded(tr[i].carts[t]) && Succeeded(tr[i].carts[u])
    requires tr[i].carts[t].key == tr[i].carts[u].key && tr[i].carts[t].key != ""
    ensures tr[i].carts[t].pc.reply.result.orderId in tr[i].db.orders
    ensures tr[i].carts[u].pc.reply.result.orderId in tr[i].db.orders
    ensures && tr[i].db.orders[tr[i].carts[t].pc.reply.result.orderId].status != Canceled
            && tr[i].db.orders[tr[i].carts[u].pc.reply.result.orderId].status != Canceled
            ==> && Shown(tr[i].carts[t].pc.reply.result) == Shown(tr[i].carts[u].pc.reply.result)
                && tr[i].carts[t].request == tr[i].carts[u].request
  {
    RunInv(tr, acts, i);
    ReplyShows(tr[i], t);
    ReplyShows(tr[i], u);
    if && tr[i].db.orders[tr[i].carts[t].pc.reply.result.orderId].status != Canceled
       && tr[i].db.orders[tr[i].carts[u].pc.reply.result.orderId].status != Canceled
    {
      AgreementState(tr[i], t, u);
      RunHashes(tr, acts, i);
      CanonicalTextInjective(tr[i].carts[t].request, tr[i].carts[u].request);
    }
  }

  lemma SuccessState(s: State, t: Tid)
    requires CartsOk(s) && SagasOk(s) && t in s.carts && Succeeded(s.carts[t])
    ensures var k, id := s.carts[t], s.carts[t].pc.reply.result.orderId;
            && id in s.db.orders && id in s.born
            && (k.pc.reply.Replayed? ==> s.db.orders[id].status != Canceled)
            && (k.pc.reply.Created? ==> s.born[id].creator == t && CancelTry(true) !in k.calls)
            && (s.db.orders[id].status == Canceled ==> k.started + STALE_ORDER < k.pc.at)
  {
    assert CartOk(s, t, s.carts[t]);
    assert SagaOk(s, t, s.carts[t]);
  }

  /** The order behind a success is canceled if and only if the checkout created it and a
      sweep found it stale, that is pending and without a session, at some earlier step;
      the answer then came over fifteen minutes after the request began. */
  lemma CanceledReplies(tr: seq<State>, acts: seq<Action>, i: nat, t: Tid)
    requires Run(tr, acts) && i < |tr| && t in tr[i].carts && Succeeded(tr[i].carts[t])
    ensures var s, k, id := tr[i], tr[i].carts[t], tr[i].carts[t].pc.reply.result.orderId;
            && id in s.db.orders
            && (s.db.orders[id].status == Canceled <==> k.pc.reply.Created? && SweptBefore(tr, acts, i, id))
            && (s.db.orders[id].status == Canceled ==> k.started + STALE_ORDER < k.pc.at)
  {
    RunInv(tr, acts, i);
    RunSagas(tr, acts, i);
    SuccessState(tr[i], t);
    CanceledExactly(tr, acts, i, tr[i].carts[t].pc.reply.result.orderId);
  }

  // ---- Under the request time limit -------------------------------------------------

  /** A run in which the context of every checkout request ends in time: a checkout that
      acts after the limit has been cut off before. */
  ghost predicate TimelyCheckouts(tr: seq<State>, acts: seq<Action>, limit: Time) {
    && Run(tr, acts)
    && forall i :: 0 <= i < |acts| ==> TimelyCartAt(tr, acts, limit, i)
  }

  ghost predicate TimelyCartAt(tr: seq<State>, acts: seq<Action>, limit: Time, i: nat)
    requires i < |acts| && |tr| == |acts| + 1
  {
    acts[i].CartStep? && acts[i].t in tr[i].carts ==> InTime(tr[i].carts[acts[i].t], limit, tr[i].db.now)
  }

  predicate InTime(k: Cart, limit: Time, now: Time) {
    k.cut || now <= k.started + limit
  }

  /** A stored session belongs to an order that is not canceled. */
  ghost predicate SessionsLive(orders: map<OrderId, Order>) {
    forall id :: id in orders && orders[id].sessionId.Some? ==> orders[id].status != Canceled
  }

  lemma CartWritesSession(db: Db, k: Cart, c: CartChoice, id: OrderId)
    requires CartEnabled(db, k, c) && id in CartDb(db, k, c).orders && CartDb(db, k, c).orders[id].sessionId.Some?
    requires id in db.orders ==> db.orders[id].sessionId == None
    ensures k.pc.Persist? && k.pc.draft.id == id && !k.cut
  {
    if k.pc.InsertOrder? && CreateOrderWithItems(db, k.pc.draft.id, RowFor(k, k.pc.draft, db.now)).Ok? {
      InsertEffect(db, k.pc.draft.id, RowFor(k, k.pc.draft, db.now));
    }
  }

  /** Within the limit, the order a session is stored on is too young for the sweep. */
  lemma TimelyPersist(s: State, t: Tid, k: Cart, c: CartChoice, id: OrderId)
    requires CartOk(s, t, k) && CartEnabled(s.db, k, c) && InTime(k, STALE_ORDER, s.db.now)
    requires id in CartDb(s.db, k, c).orders && CartDb(s.db, k, c).orders[id].sessionId.Some?
    requires id in s.db.orders ==> s.db.orders[id].sessionId == None
    ensures id in s.db.orders && s.db.orders[id].status != Canceled
  {
    CartWritesSession(s.db, k, c, id);
  }

  lemma CartNewSession(s: State, t: Tid, c: CartChoice, id: OrderId)
    requires CartsOk(s) && Enabled(s, CartStep(t, c)) && InTime(s.carts[t], STALE_ORDER, s.db.now)
    requires id in Step(s, CartStep(t, c)).db.orders && Step(s, CartStep(t, c)).db.orders[id].sessionId.Some?
    requires id in s.db.orders ==> s.db.orders[id].sessionId == None
    ensures id in s.db.orders && s.db.orders[id].status != Canceled
  {
    CartStepShape(s, t, c);
    CartKnown(s, t);
    TimelyPersist(s, t, s.carts[t], c, id);
  }

  lemma NoNewSession(s: State, s': State, id: OrderId)
    requires OrdersMove(s, s', None) && id in s.db.orders && s.db.orders[id].sessionId == None
    ensures id in s'.db.orders && s'.db.orders[id].sessionId == None
  {
  }

  lemma SessionsLiveKept(s: State, a: Action)
    requires OrdersOk(s) && EventsOk(s) && HooksOk(s) && CartsOk(s) && SessionsLive(s.db.orders) && Enabled(s, a)
    requires a.CartStep? ==> InTime(s.carts[a.t], STALE_ORDER, s.db.now)
    ensures SessionsLive(Step(s, a).db.orders)
  {
    var s' := Step(s, a);
    StepMoves(s, a);
    if !a.CartStep? {
      DomainKept(s, a);
    }
    forall id | id in s'.db.orders && s'.db.orders[id].sessionId.Some?
      ensures s'.db.orders[id].status != Canceled
    {
      if id !in s.db.orders || s.db.orders[id].sessionId == None {
        if a.CartStep? {
          CartNewSession(s, a.t, a.cartChoice, id);
        } else {
          NoNewSession(s, s', id);
        }
      }
      SessionRowStaysLive(s, s', Actor(a), id);
    }
  }

  lemma SessionRowStaysLive(s: State, s': State, actor: Option<Tid>, id: OrderId)
    requires OrdersMove(s, s', actor) && id in s.db.orders && s.db.orders[id].status != Canceled
    requires id in s'.db.orders && s'.db.orders[id].sessionId.Some?
    ensures s'.db.orders[id].status != Canceled
  {
  }

  /** A limit no longer than the age the sweep looks for is what protects the session
      write, which has no status guard of its own: no session is ever stored on a canceled
      order, and no order with a session is ever canceled. */
  lemma {:induction false} TimelySessionsAreLive(tr: seq<State>, acts: seq<Action>, limit: Time, i: nat)
    requires TimelyCheckouts(tr, acts, limit) && limit <= STALE_ORDER && i < |tr|
    ensures SessionsLive(tr[i].db.orders)
  {
    if i > 0 {
      TimelySessionsAreLive(tr, acts, limit, i - 1);
      RunInv(tr, acts, i - 1);
      assert StepAt(tr, acts, i - 1);
      assert TimelyCartAt(tr, acts, limit, i - 1);
      SessionsLiveKept(tr[i - 1], acts[i - 1]);
    }
  }

  lemma LiveReply(s: State, t: Tid)
    requires CartsOk(s) && SessionsLive(s.db.orders) && t in s.carts && Succeeded(s.carts[t])
    ensures var id := s.carts[t].pc.reply.result.orderId; id in s.db.orders && s.db.orders[id].status != Canceled
  {
    ReplyShows(s, t);
  }

  /** Under the router's sixty seconds the order behind a success is never canceled, then or later. */
  lemma TimelySuccessIsLive(tr: seq<State>, acts: seq<Action>, i: nat, t: Tid)
    requires TimelyCheckouts(tr, acts, CHECKOUT_TIMEOUT) && i < |tr| && t in tr[i].carts && Succeeded(tr[i].carts[t])
    ensures var id := tr[i].carts[t].pc.reply.result.orderId;
            id in tr[i].db.orders && tr[i].db.orders[id].status != Canceled
  {
    RunInv(tr, acts, i);
    TimelySessionsAreLive(tr, acts, CHECKOUT_TIMEOUT, i);
    LiveReply(tr[i], t);
  }

  /** Under the router's sixty seconds any two successes for one key agree, without exception. */
  lemma TimelyRepliesAgree(tr: seq<State>, acts: seq<Action>, i: nat, t: Tid, u: Tid)
    requires TimelyCheckouts(tr, acts, CHECKOUT_TIMEOUT) && i < |tr| && t in tr[i].carts && u in tr[i].carts
    requires Succeeded(tr[i].carts[t]) && Succeeded(tr[i].carts[u])
    requires tr[i].carts[t].key == tr[i].carts[u].key && tr[i].carts[t].key != ""
    ensures Shown(tr[i].carts[t].pc.reply.result) == Shown(tr[i].carts[u].pc.reply.result)
    ensures tr[i].carts[t].request == tr[i].carts[u].request
  {
    RepliesAgree(tr, acts, i, t, u);
    TimelySuccessIsLive(tr, acts, i, t);
    TimelySuccessIsLive(tr, acts, i, u);
  }

  // ---- Keys come free ----------------------------------------------------------------

  /** Once a sweep has passed over an order old enough, it is canceled or has a session. */
  lemma SweptOrSession(s: State, id: OrderId)
    requires OrdersOk(s) && id in s.db.orders && s.db.orders[id].createdAt + STALE_ORDER < s.db.now
    ensures id in Step(s, Sweep).db.orders
    ensures var row := Step(s, Sweep).db.orders[id]; row.status == Canceled || row.sessionId.Some?
  {
    assert OrderOk(s.born[id], s.db.orders[id]);
  }

  /** Canceled, or bound to a session: the two ways an order stops being in progress. */
  predicate Resolved(row: Order) {
    row.status == Canceled || row.sessionId.GetOr("") != ""
  }

  lemma AfterSweep(tr: seq<State>, acts: seq<Action>, i: nat, id: OrderId)
    requires Run(tr, acts) && i < |acts| && acts[i] == Sweep
    requires id in tr[i].db.orders && tr[i].db.orders[id].createdAt + STALE_ORDER < tr[i].db.now
    ensures id in tr[i + 1].db.orders
    ensures tr[i + 1].db.orders[id].status == Canceled || tr[i + 1].db.orders[id].sessionId.Some?
  {
    RunOrders(tr, acts, i);
    assert StepAt(tr, acts, i);
    SweptOrSession(tr[i], id);
  }

  lemma SweptStays(tr: seq<State>, acts: seq<Action>, i: nat, j: nat, id: OrderId)
    requires Run(tr, acts) && i < j < |tr| && acts[i] == Sweep
    requires id in tr[i].db.orders && tr[i].db.orders[id].createdAt + STALE_ORDER < tr[i].db.now
    ensures id in tr[j].db.orders && Resolved(tr[j].db.orders[id])
  {
    AfterSweep(tr, acts, i, id);
    OrderEvolves(tr, acts, i + 1, j, id);
    RunBorn(tr, acts, j, id);
    ResolvedLater(tr[i + 1].db.orders[id], tr[j].born[id], tr[j].db.orders[id]);
  }

  lemma ResolvedLater(row: Order, b: Birth, later: Order)
    requires row.status == Canceled || row.sessionId.Some?
    requires Evolves(row, later) && OrderOk(b, later)
    ensures Resolved(later)
  {
  }

  /** After one sweep, fifteen minutes after an order was inserted, no later lookup of its
      key is answered "in progress": either the order has a session, or the lookup goes on
      to release the key, and one more fault-free statement leaves it free. */
  lemma KeyNeverStuck(tr: seq<State>, acts: seq<Action>, i: nat, j: nat, t: Tid, id: OrderId)
    requires Run(tr, acts) && i < j < |acts| && acts[i] == Sweep
    requires id in tr[i].db.orders && tr[i].db.orders[id].createdAt + STALE_ORDER < tr[i].db.now
    requires acts[j] == CartStep(t, KeyLookup(Some(id))) && t in tr[j].carts && tr[j].carts[t].pc.Resolve?
    ensures id in tr[j].db.orders && t in tr[j + 1].carts
    ensures tr[j + 1].carts[t].pc != Finished(Refused(CheckoutInProgress), tr[j].db.now)
    ensures tr[j].db.orders[id].status != Canceled ==> tr[j].db.orders[id].sessionId.GetOr("") != ""
    ensures tr[j].db.orders[id].status == Canceled ==> tr[j + 1].carts[t].pc.Clear? && tr[j + 1].carts[t].pc.id == id
    ensures tr[j].db.orders[id].status == Canceled && j + 1 < |acts| && acts[j + 1] == CartStep(t, Proceeds) ==>
              FindsByKey(tr[j + 2].db.orders, tr[j].carts[t].key, None)
  {
    SweptStays(tr, acts, i, j, id);
    assert StepAt(tr, acts, j);
    ResolveOutcome(tr[j], t, id);
    if tr[j].db.orders[id].status == Canceled && j + 1 < |acts| && acts[j + 1] == CartStep(t, Proceeds) {
      assert StepAt(tr, acts, j + 1);
      RunInv(tr, acts, j);
      ClearStepFrees(tr[j + 1], t, id, tr[j].carts[t].key);
    }
  }

  lemma ResolveOutcome(s: State, t: Tid, id: OrderId)
    requires t in s.carts && s.carts[t].pc.Resolve? && Enabled(s, CartStep(t, KeyLookup(Some(id))))
    requires id in s.db.orders ==> Resolved(s.db.orders[id])
    ensures var s' := Step(s, CartStep(t, KeyLookup(Some(id))));
            && id in s.db.orders && s.db.orders[id].key == Some(s.carts[t].key) && s'.db == s.db && t in s'.carts
            && s'.carts[t].pc != Finished(Refused(CheckoutInProgress), s.db.now)
            && (s.db.orders[id].status == Canceled ==> s'.carts[t].pc == Clear(id, s.carts[t].pc.second))
  {
  }

  lemma ClearFrees(db: Db, id: OrderId, key: string)
    requires KeysUnique(db.orders) && id in db.orders && db.orders[id].key == Some(key)
             && db.orders[id].status == Canceled
    ensures FindsByKey(ClearKey(db, id).orders, key, None)
  {
  }

  lemma ClearStepFrees(s: State, t: Tid, id: OrderId, key: string)
    requires Enabled(s, CartStep(t, Proceeds)) && s.carts[t].pc.Clear? && s.carts[t].pc.id == id
    requires KeysUnique(s.db.orders) && id in s.db.orders && s.db.orders[id].key == Some(key)
             && s.db.orders[id].status == Canceled
    ensures FindsByKey(Step(s, CartStep(t, Proceeds)).db.orders, key, None)
  {
    ClearFrees(s.db, id, key);
  }

  // ---- What a lookup of a key decides -----------------------------------------------

  lemma LookupOutcome(s: State, t: Tid, id: OrderId)
    requires Enabled(s, CartStep(t, KeyLookup(Some(id)))) && s.carts[t].pc.Resolve?
    requires id in s.db.orders && ExtractRequestHash(s.db.orders[id].metadata) != ""
             && s.db.orders[id].sessionId != Some("")
    ensures var row, k, s' := s.db.orders[id], s.carts[t], Step(s, CartStep(t, KeyLookup(Some(id))));
            && t in s'.carts
            && s'.carts[t].pc ==
               if row.status == Canceled then Clear(id, k.pc.second)
               else if ExtractRequestHash(row.metadata) != k.hash then Finished(Refused(IdempotencyConflict), s.db.now)
               else if row.sessionId.None? then Finished(Refused(CheckoutInProgress), s.db.now)
               else RenewToken(Found(id, row))
  {
  }

  /** What a request is told about a key that is taken: the order is canceled and the key
      comes free; or it answers a different request; or the same request is still under
      way; or the stored answer is repeated. Requests are compared as a whole, although
      only hashes of their canonical texts are stored. */
  lemma LookupDecides(tr: seq<State>, acts: seq<Action>, i: nat, t: Tid, id: OrderId)
    requires Run(tr, acts) && i < |acts| && acts[i] == CartStep(t, KeyLookup(Some(id)))
    requires t in tr[i].carts && tr[i].carts[t].pc.Resolve? && id in tr[i].db.orders
    ensures id in tr[i].born && tr[i].born[id].creator in tr[i].carts && t in tr[i + 1].carts
    ensures var row, k, creator := tr[i].db.orders[id], tr[i].carts[t], tr[i].carts[tr[i].born[id].creator];
            tr[i + 1].carts[t].pc ==
            if row.status == Canceled then Clear(id, k.pc.second)
            else if creator.request != k.request then Finished(Refused(IdempotencyConflict), tr[i].db.now)
            else if row.sessionId.None? then Finished(Refused(CheckoutInProgress), tr[i].db.now)
            else RenewToken(Found(id, row))
  {
    RunBorn(tr, acts, i, id);
    RunCreators(tr, acts, i);
    RunHashes(tr, acts, i);
    assert StepAt(tr, acts, i);
    StoredHash(tr[i], id, t);
    LookupOutcome(tr[i], t, id);
  }

  lemma StoredHash(s: State, id: OrderId, t: Tid)
    requires id in s.db.orders && id in s.born && OrderOk(s.born[id], s.db.orders[id])
    requires CreatorsOk(s) && HashesOk(s) && t in s.carts
    ensures s.born[id].creator in s.carts
    ensures ExtractRequestHash(s.db.orders[id].metadata) != "" && s.db.orders[id].sessionId != Some("")
    ensures ExtractRequestHash(s.db.orders[id].metadata) == s.carts[t].hash
            <==> s.carts[s.born[id].creator].request == s.carts[t].request
  {
    assert CreatorOk(s, id, s.born[id]);
    var creator := s.carts[s.born[id].creator];
    assert HashOk(creator) && HashOk(s.carts[t]);
    CanonicalTextInjective(creator.request, s.carts[t].request);
  }

  // ---- A payment that is never recorded ------------------------------------------------

  lemma CanceledState(s: State, id: OrderId, e: EventId)
    requires EventsOk(s) && SessionsUnique(s.db.orders) && id in s.db.orders && s.db.orders[id].status == Canceled
    requires e in s.payloads && Target(s.payloads[e]).Some? && !s.payloads[e].ChargeRefunded?
    requires s.db.orders[id].sessionId == Some(s.payloads[e].session.id)
    requires e in s.db.events
    ensures s.db.events[e].status != Processed
  {
    assert EventOk(s.db.orders, s.payloads[e], s.db.events[e], s.db.now);
  }

  /** A session stored on an order the sweep had already canceled can still be paid at
      Stripe, but no event about it is ever processed: the payment is never recorded. */
  lemma CanceledOrdersTakeNoPayment(tr: seq<State>, acts: seq<Action>, i: nat, j: nat, id: OrderId, e: EventId)
    requires Run(tr, acts) && i <= j < |tr| && id in tr[i].db.orders && tr[i].db.orders[id].status == Canceled
    requires e in tr[i].payloads && Target(tr[i].payloads[e]).Some? && !tr[i].payloads[e].ChargeRefunded?
    requires tr[i].db.orders[id].sessionId == Some(tr[i].payloads[e].session.id)
    ensures e in tr[j].db.events ==> tr[j].db.events[e].status != Processed
  {
    OrderEvolves(tr, acts, i, j, id);
    PayloadsFixed(tr, acts, i, j);
    RunInv(tr, acts, j);
    if e in tr[j].db.events {
      CanceledState(tr[j], id, e);
    }
  }
}
