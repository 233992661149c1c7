/** Runs that show the exceptions in the theorems are real. */
module Scenarios {
  import opened Domain
  import opened Pricing
  import opened Canonical
  import opened Validation
  import opened Tables
  import opened WebhookProgram
  import opened CheckoutProgram
  import opened Protocol
  import opened ClaimTheorems
  import opened DeliveryTheorems
  import opened SagaTheorems
  import opened CheckoutTheorems
  import opened PaymentTheorems
  import Runs

  function Last(tr: seq<State>): State
    requires tr != []
  {
    tr[|tr| - 1]
  }

  lemma Extend(tr: seq<State>, acts: seq<Action>, a: Action) returns (tr': seq<State>, acts': seq<Action>)
    requires Run(tr, acts) && Enabled(Last(tr), a)
    ensures Run(tr', acts') && Last(tr') == Step(Last(tr), a) && acts' == acts + [a]
  {
    tr', acts' := tr + [Step(Last(tr), a)], acts + [a];
    forall i | 0 <= i < |acts'|
      ensures StepAt(tr', acts', i)
    {
      if i < |acts| {
        assert StepAt(tr, acts, i);
      }
    }
  }

  // ---- One failed statement loses an event -----------------------------------------

  const GO := HookChoice(false, None)
  const FAIL := HookChoice(true, None)

  function Waiting(e: EventId, p: Payload): State {
    State(Db(map[], map[], 0), map[e := p], map[], map[], map[])
  }

  /** A first delivery that has found no row for its event. */
  lemma FirstDelivery(e: EventId, p: Payload) returns (tr: seq<State>, acts: seq<Action>)
    ensures Run(tr, acts) && Last(tr) == Waiting(e, p).(hooks := map[0 := Hook(e, Insert, 0, None)])
  {
    var s0 := Waiting(e, p);
    tr, acts := [s0], [];
    tr, acts := Extend(tr, acts, Deliver(0, e));
    assert Last(tr) == s0.(hooks := map[0 := Hook(e, Read, 0, None)]);
    tr, acts := Extend(tr, acts, HookStep(0, GO));
  }

  /** For every event of a handled type there is a run in which a single failed claim, and
      no crash, leaves the event `received` for good: Stripe is told to retry, and every
      retry is told the same. */
  lemma OneFaultStrandsAnEvent(e: EventId, p: Payload) returns (tr: seq<State>, acts: seq<Action>)
    requires Handled(p)
    ensures Run(tr, acts) && Stranded(Last(tr), e) && Last(tr).payloads == map[e := p]
    ensures 0 in Last(tr).hooks && Last(tr).hooks[0].pc == Done(RetryLater)
  {
    var s0 := Waiting(e, p);
    tr, acts := FirstDelivery(e, p);
    tr, acts := Extend(tr, acts, HookStep(0, GO));
    assert Last(tr) == s0.(db := InsertEvent(s0.db, e), hooks := map[0 := Hook(e, TryClaim, 0, None)]);
    tr, acts := Extend(tr, acts, HookStep(0, FAIL));
    assert Last(tr) == s0.(db := InsertEvent(s0.db, e), hooks := map[0 := Hook(e, Done(RetryLater), 0, None)]);
  }

  // ---- The limit on webhooks is needed -----------------------------------------------

  lemma FirstClaim(e: EventId, p: Payload) returns (tr: seq<State>, acts: seq<Action>)
    requires Handled(p)
    ensures Run(tr, acts)
    ensures Last(tr) == State(Db(map[], map[e := EventRow(InFlight, Some(0), 0, None, None)], 0), map[e := p],
                              map[0 := Hook(e, BuildCompletion, 0, Some(0))], map[], map[])
  {
    var s0 := Waiting(e, p);
    tr, acts := FirstDelivery(e, p);
    tr, acts := Extend(tr, acts, HookStep(0, GO));
    assert Last(tr) == s0.(db := InsertEvent(s0.db, e), hooks := map[0 := Hook(e, TryClaim, 0, None)]);
    tr, acts := Extend(tr, acts, HookStep(0, GO));
  }

  lemma SecondRead(tr: seq<State>, acts: seq<Action>, s: State, e: EventId, row: EventRow)
    returns (tr': seq<State>, acts': seq<Action>)
    requires Run(tr, acts) && Last(tr) == s && e in s.payloads && Handled(s.payloads[e])
    requires s.db.events == map[e := row] && row.status == InFlight && 1 !in s.hooks
    ensures Run(tr', acts')
    ensures Last(tr') == s.(hooks := s.hooks[1 := Hook(e, TestStale(row), s.db.now, None)])
  {
    tr', acts' := Extend(tr, acts, Deliver(1, e));
    assert Last(tr') == s.(hooks := s.hooks[1 := Hook(e, Read, s.db.now, None)]);
    tr', acts' := Extend(tr', acts', HookStep(1, GO));
  }

  lemma SecondClaim(tr: seq<State>, acts: seq<Action>, s: State, e: EventId, h: Hook)
    returns (tr': seq<State>, acts': seq<Action>)
    requires Run(tr, acts) && Last(tr) == s && e in s.payloads && Handled(s.payloads[e])
    requires s.db.events == map[e := EventRow(InFlight, Some(0), 0, None, None)] && STALE_WEBHOOK < s.db.now
    requires h == Hook(e, TestStale(s.db.events[e]), s.db.now, None) && 1 in s.hooks && s.hooks[1] == h
    ensures Run(tr', acts') && Last(tr').db.now == s.db.now
    ensures Last(tr').hooks == s.hooks[1 := Hook(e, BuildCompletion, s.db.now, Some(s.db.now))]
  {
    tr', acts' := Extend(tr, acts, HookStep(1, GO));
    assert Last(tr') == s.(hooks := s.hooks[1 := Hook(e, TryClaim, s.db.now, None)]);
    tr', acts' := Extend(tr', acts', HookStep(1, GO));
  }

  /** Given more than five minutes, a handler can be overtaken while it is still at work. */
  lemma SlowHandlersShareAnEvent(e: EventId, p: Payload) returns (tr: seq<State>, acts: seq<Action>)
    requires Handled(p)
    ensures Run(tr, acts) && Last(tr).db.now == STALE_WEBHOOK + 1
    ensures Last(tr).hooks == map[0 := Hook(e, BuildCompletion, 0, Some(0)),
                                  1 := Hook(e, BuildCompletion, STALE_WEBHOOK + 1, Some(STALE_WEBHOOK + 1))]
  {
    tr, acts := FirstClaim(e, p);
    tr, acts := Extend(tr, acts, Tick(STALE_WEBHOOK + 1));
    var row := EventRow(InFlight, Some(0), 0, None, None);
    tr, acts := SecondRead(tr, acts, Last(tr), e, row);
    tr, acts := SecondClaim(tr, acts, Last(tr), e, Hook(e, TestStale(row), STALE_WEBHOOK + 1, None));
  }

  lemma NoHandlerLate(tr: seq<State>, acts: seq<Action>, limit: Time)
    requires Run(tr, acts) && Last(tr).db.now <= limit
    ensures TimelyRun(tr, acts, limit)
  {
    forall i | 0 <= i < |acts|
      ensures TimelyAt(tr, acts, limit, i)
    {
      Runs.PayloadsFixed(tr, acts, i, |tr| - 1);
    }
  }

  /** A request limit keeps any two handlers from holding one event at the same time, in
      every run, if and only if it is no longer than the five minutes after which a claim
      is stale. */
  lemma WebhookLimitSeparatesIff(limit: Time)
    ensures (forall tr: seq<State>, acts: seq<Action>, i: nat, t: Tid, u: Tid ::
               TimelyRun(tr, acts, limit) && i < |tr| ==> !BothHold(tr[i], limit, t, u))
            <==> limit <= 300_000
  {
    if limit <= STALE_WEBHOOK {
      forall tr: seq<State>, acts: seq<Action>, i: nat, t: Tid, u: Tid | TimelyRun(tr, acts, limit) && i < |tr|
        ensures !BothHold(tr[i], limit, t, u)
      {
        TwoNeverHold(tr, acts, limit, i, t, u);
      }
    } else {
      var tr, acts := SlowHandlersShareAnEvent("", Malformed);
      NoHandlerLate(tr, acts, limit);
      assert BothHold(tr[|tr| - 1], limit, 0, 1);
    }
  }

  // ---- An order is placed ------------------------------------------------------------

  /** The cart is accepted and priced, and the table takes the order. */
  ghost predicate Buyable(r: Request, products: map<string, Product>, d: Draft) {
    ValidRequest(r, true) && PricesTo(r.items, products, d) && d.total > 0 && LinesPassChecks(d.lines)
  }

  ghost predicate PricesTo(items: seq<Item>, products: map<string, Product>, d: Draft) {
    && ValidCatalog(products) && d.token != ""
    && PriceItems(items, products) == Ok(Priced(d.currency, d.total, d.lines))
  }

  function Choice(products: map<string, Product>, d: Draft): CartChoice {
    Catalog(products, d.id, d.number, d.token)
  }

  lemma PriceNext(db: Db, k: Cart, products: map<string, Product>, d: Draft)
    requires k.pc == Price && PricesTo(k.request.items, products, d) && !k.cut
    ensures CartEnabled(db, k, Choice(products, d)) && CartDb(db, k, Choice(products, d)) == db
    ensures CartNext(db, k, Choice(products, d)) == k.(pc := InsertOrder(d))
  {
  }

  /** A step of the only checkout that leaves the tables alone. */
  lemma CartAlone(s: State, k: Cart, c: CartChoice)
    requires s.carts == map[0 := k] && CartEnabled(s.db, k, c) && CartDb(s.db, k, c) == s.db && !k.pc.InsertOrder?
    ensures Enabled(s, CartStep(0, c))
    ensures Step(s, CartStep(0, c)) == s.(carts := map[0 := CartNext(s.db, k, c)])
  {
  }

  function Placed(k: Cart, d: Draft): Cart {
    k.(pc := CreateSession(d), mine := Some(d.id), calls := [OrderInserted])
  }

  lemma InsertStep(s: State, k: Cart, d: Draft)
    requires s.carts == map[0 := k] && k.pc == InsertOrder(d) && s.db == Db(map[], map[], 0)
    requires k.calls == [] && !k.cut && d.total > 0 && LinesPassChecks(d.lines)
    ensures Enabled(s, CartStep(0, Proceeds))
    ensures var s' := Step(s, CartStep(0, Proceeds));
            && s'.db == Db(map[d.id := RowFor(k, d, 0)], map[], 0) && s'.carts == map[0 := Placed(k, d)]
            && s'.payloads == s.payloads && s'.hooks == s.hooks
  {
    var row := RowFor(k, d, 0);
    assert k.calls + [OrderInserted] == [OrderInserted];
    assert CreateOrderWithItems(s.db, d.id, row) == Ok(Db(map[d.id := row], map[], 0));
  }

  /** A submitted checkout that has found its key, if it has one, free. */
  lemma KeyFree(r: Request, key: string, payloads: map<EventId, Payload>)
    returns (tr: seq<State>, acts: seq<Action>)
    requires ValidRequest(r, true) && ValidKey(key)
    ensures Run(tr, acts) && Last(tr).db == Db(map[], map[], 0)
    ensures Last(tr).payloads == payloads && Last(tr).hooks == map[]
    ensures Last(tr).carts == map[0 := NewCart(r, key, 0).(pc := Price)]
    ensures forall a :: a in acts ==> a.CartStep? ==> !a.cartChoice.Catalog?
  {
    var s0 := State(Db(map[], map[], 0), payloads, map[], map[], map[]);
    tr, acts := [s0], [];
    tr, acts := Extend(tr, acts, Submit(0, r, key, true));
    if key != "" {
      tr, acts := Extend(tr, acts, CartStep(0, KeyLookup(None)));
    }
  }

  ghost predicate Reads(acts: seq<Action>, products: map<string, Product>) {
    forall a :: a in acts ==> a.CartStep? && a.cartChoice.Catalog? ==> a.cartChoice.products == products
  }

  lemma OrderPriced(r: Request, key: string, products: map<string, Product>, d: Draft,
      payloads: map<EventId, Payload>)
    returns (tr: seq<State>, acts: seq<Action>)
    requires ValidRequest(r, true) && ValidKey(key) && PricesTo(r.items, products, d)
    ensures Run(tr, acts) && Last(tr).db == Db(map[], map[], 0) && Reads(acts, products)
    ensures Last(tr).carts == map[0 := NewCart(r, key, 0).(pc := InsertOrder(d))]
    ensures Last(tr).payloads == payloads && Last(tr).hooks == map[]
  {
    tr, acts := KeyFree(r, key, payloads);
    var k := NewCart(r, key, 0).(pc := Price);
    PriceNext(Last(tr).db, k, products, d);
    CartAlone(Last(tr), k, Choice(products, d));
    tr, acts := Extend(tr, acts, CartStep(0, Choice(products, d)));
  }

  /** The run up to the point where the order is inserted. */
  lemma OrderPlaced(r: Request, key: string, products: map<string, Product>, d: Draft,
      payloads: map<EventId, Payload>)
    returns (tr: seq<State>, acts: seq<Action>, k: Cart)
    requires Buyable(r, products, d) && ValidKey(key)
    ensures Run(tr, acts) && k.pc == CreateSession(d) && k.request == r && k.key == key && !k.cut
    ensures k.mine == Some(d.id) && Last(tr).carts == map[0 := k] && Reads(acts, products)
    ensures Last(tr).db == Db(map[d.id := RowFor(k, d, 0)], map[], 0)
    ensures Last(tr).payloads == payloads && Last(tr).hooks == map[]
  {
    tr, acts := OrderPriced(r, key, products, d, payloads);
    var k1 := NewCart(r, key, 0).(pc := InsertOrder(d));
    InsertStep(Last(tr), k1, d);
    tr, acts := Extend(tr, acts, CartStep(0, Proceeds));
    k := Placed(k1, d);
    assert RowFor(k, d, 0) == RowFor(k1, d, 0);
  }

  const CART := Request(HOSTED, [Item("p", 1)], "", map[])
  const CATALOG := map["p" := Product("Mug", 100, "usd")]
  const SESSION := StripeSession("cs_1", "https://checkout", "")
  const DRAFT := Draft("o", "n", "t", 100, "usd", [Line("p", "Mug", 1, 100, 100)])

  lemma SingleItem(item: Item, products: map<string, Product>)
    requires item.productId in products
    ensures PriceItems([item], products) == Ok(AddLine(Priced("", 0, []), item, products[item.productId]))
  {
    var items := [item];
    assert items[..0] == [];
    assert PriceItems(items[..0], products) == Ok(Priced("", 0, []));
  }

  lemma CartIsBuyable()
    ensures Buyable(CART, CATALOG, DRAFT) && ValidKey("")
  {
    assert "p"[0] == 'p' && !IsSpace('p');
    SingleItem(Item("p", 1), CATALOG);
    assert Wrap32(100 * 1) == 100;
    assert AddLine(Priced("", 0, []), Item("p", 1), CATALOG["p"]) == Priced("usd", 100, DRAFT.lines);
    assert PricesTo(CART.items, CATALOG, DRAFT);
    assert ItemsOk(CART.items);
  }

  // ---- A checkout that is cut off ----------------------------------------------------

  lemma AfterCut(tr: seq<State>, acts: seq<Action>, k: Cart, d: Draft)
    returns (tr': seq<State>, acts': seq<Action>, k': Cart)
    requires Run(tr, acts) && Last(tr).carts == map[0 := k] && k.pc == CreateSession(d) && k.cut
    ensures Run(tr', acts') && Last(tr') == Last(tr).(carts := map[0 := k'])
    ensures k'.pc == ExpireSession(d, SESSION) && k'.cut && k'.mine == k.mine
  {
    CartAlone(Last(tr), k, StripeReply(SESSION));
    tr', acts' := Extend(tr, acts, CartStep(0, StripeReply(SESSION)));
    var k1 := CartNext(Last(tr).db, k, StripeReply(SESSION));
    CartAlone(Last(tr'), k1, ContextDone);
    tr', acts' := Extend(tr', acts', CartStep(0, ContextDone));
    k' := CartNext(Last(tr).db, k1, ContextDone);
  }

  lemma Compensate(tr: seq<State>, acts: seq<Action>, k: Cart, d: Draft)
    returns (tr': seq<State>, acts': seq<Action>, k': Cart)
    requires Run(tr, acts) && Last(tr).carts == map[0 := k] && k.pc == ExpireSession(d, SESSION) && k.cut
    ensures Run(tr', acts') && Last(tr') == Last(tr).(carts := map[0 := k'])
    ensures CheckoutFailed(k') && k'.cut && k'.mine == k.mine
  {
    CartAlone(Last(tr), k, Proceeds);
    tr', acts' := Extend(tr, acts, CartStep(0, Proceeds));
    var k1 := CartNext(Last(tr).db, k, Proceeds);
    CartAlone(Last(tr'), k1, Fault);
    tr', acts' := Extend(tr', acts', CartStep(0, Fault));
    k' := CartNext(Last(tr).db, k1, Fault);
  }

  /** For any key there is a run in which a checkout is cut off while Stripe prepares its
      session: it can neither store the session nor cancel, and its order is left pending,
      without a session, holding the key. */
  lemma CutCheckoutKeepsKey(key: string) returns (tr: seq<State>, acts: seq<Action>)
    requires ValidKey(key)
    ensures Run(tr, acts) && 0 in Last(tr).carts && CheckoutFailed(Last(tr).carts[0]) && Last(tr).carts[0].cut
    ensures var s := Last(tr);
            && s.carts[0].mine.Some? && s.carts[0].mine.value in s.db.orders
            && var row := s.db.orders[s.carts[0].mine.value];
               row.status == Pending && row.sessionId == None && row.key == NullIfEmpty(key)
  {
    CartIsBuyable();
    var k;
    tr, acts, k := OrderPlaced(CART, key, CATALOG, DRAFT, map[]);
    tr, acts := Extend(tr, acts, CartCut(0));
    tr, acts, k := AfterCut(tr, acts, k.(cut := true), DRAFT);
    tr, acts, k := Compensate(tr, acts, k, DRAFT);
  }

  // ---- The price cap is needed -------------------------------------------------------

  /** A full cart of twenty products. */
  function FullCart(n: nat): seq<Item> {
    seq(n, i requires 0 <= i => Item(seq(i + 1, _ => 'a'), MAX_QUANTITY))
  }

  function OnePrice(items: seq<Item>, unit: int): map<string, Product> {
    map i | 0 <= i < |items| :: items[i].productId := Product("", unit, "usd")
  }

  lemma FullCartIsAccepted()
    ensures ValidRequest(Request(HOSTED, FullCart(MAX_ITEMS), "", map[]), true)
  {
    var items := FullCart(MAX_ITEMS);
    forall i | 0 <= i < |items|
      ensures ItemOk(items[i])
    {
      assert items[i].productId[0] == 'a' && !IsSpace('a');
    }
    forall i, j | 0 <= i < j < |items|
      ensures items[i].productId != items[j].productId
    {
      assert |items[i].productId| == i + 1 && |items[j].productId| == j + 1;
    }
  }

  lemma FullCartLines(n: nat, unit: int, p: Priced)
    requires LinesOf(p, FullCart(n), OnePrice(FullCart(n), unit))
    ensures p.lines == DearestCart(n, unit)
  {
    var items := FullCart(n);
    forall i | 0 <= i < n
      ensures p.lines[i] == DearestCart(n, unit)[i]
    {
      assert p.lines[i] == MakeLine(items[i], Product("", unit, "usd"));
    }
  }

  lemma FullCartPrices(n: nat, unit: int)
    requires n > 0
    ensures PriceItems(FullCart(n), OnePrice(FullCart(n), unit))
            == Ok(Priced("usd", WrapTotal(DearestCart(n, unit)), DearestCart(n, unit)))
  {
    var items, products := FullCart(n), OnePrice(FullCart(n), unit);
    assert OneCurrency(items, products, "usd");
    OneCurrencySucceeds(items, products, "usd");
    PricedLines(items, products);
    FullCartLines(n, unit, PriceItems(items, products).value);
  }

  /** One cent above the cap, an order is stored at a total that Stripe does not charge. */
  lemma WrappedOrderIsStored() returns (tr: seq<State>, acts: seq<Action>)
    ensures Run(tr, acts) && CappedPrices(acts, SAFE_STORED_UNIT + 1)
    ensures "o" in Last(tr).db.orders && Last(tr).db.orders["o"].total == 1_184
    ensures ExactTotal(Last(tr).db.orders["o"].lines) == 4_294_968_480
  {
    var unit := SAFE_STORED_UNIT + 1;
    var r := Request(HOSTED, FullCart(MAX_ITEMS), "", map[]);
    var products := OnePrice(r.items, unit);
    FullCartIsAccepted();
    FullCartPrices(MAX_ITEMS, unit);
    DearestCartIsStored();
    var lines := DearestCart(MAX_ITEMS, unit);
    var d := Draft("o", "n", "t", WrapTotal(lines), "usd", lines);
    var k;
    tr, acts, k := OrderPlaced(r, "", products, d, map[]);
    forall i | 0 <= i < |acts|
      ensures CappedAction(acts[i], unit)
    {
      assert acts[i] in acts;
    }
  }

  /** A cap on catalogue prices keeps every stored total equal to what Stripe charges, in
      every run, if and only if it is at most 2,169,175 cents. */
  lemma PriceCapProtectsIff(cap: int)
    ensures (forall tr: seq<State>, acts: seq<Action>, i: nat, id: OrderId ::
               Run(tr, acts) && CappedPrices(acts, cap) && i < |tr| ==> TotalExact(tr[i], id))
            <==> cap <= 2_169_175
  {
    if cap <= SAFE_STORED_UNIT {
      forall tr: seq<State>, acts: seq<Action>, i: nat, id: OrderId
        | Run(tr, acts) && CappedPrices(acts, cap) && i < |tr|
        ensures TotalExact(tr[i], id)
      {
        StoredTotalsAreExact(tr, acts, cap, i, id);
      }
    } else {
      var tr, acts := WrappedOrderIsStored();
      HigherCap(acts, SAFE_STORED_UNIT + 1, cap);
      assert !TotalExact(tr[|tr| - 1], "o");
    }
  }

  lemma HigherCap(acts: seq<Action>, low: int, high: int)
    requires CappedPrices(acts, low) && low <= high
    ensures CappedPrices(acts, high)
  {
    forall i | 0 <= i < |acts|
      ensures CappedAction(acts[i], high)
    {
      assert CappedAction(acts[i], low);
    }
  }

  // ---- The limit on checkouts is needed --------------------------------------------

  lemma SweepStep(s: State, k: Cart)
    requires s.db == Db(map["o" := RowFor(k, DRAFT, 0)], map[], STALE_ORDER + 1)
    ensures Step(s, Sweep).db == Db(map["o" := Swept(RowFor(k, DRAFT, 0), STALE_ORDER + 1)], map[], STALE_ORDER + 1)
    ensures Swept(RowFor(k, DRAFT, 0), STALE_ORDER + 1).status == Canceled
  {
  }

  lemma PersistStep(s: State, k: Cart, row: Order)
    requires s.carts == map[0 := k] && k.pc == Persist(DRAFT, 0, SESSION) && !k.cut && k.request == CART
    requires s.db.orders == map["o" := row]
    ensures Enabled(s, CartStep(0, Proceeds))
    ensures var s' := Step(s, CartStep(0, Proceeds));
            && 0 in s'.carts
            && s'.carts[0].pc == Finished(Created(BuildCheckoutResult(DRAFT, HOSTED, SESSION)), s.db.now)
            && s'.payloads == s.payloads && s'.hooks == s.hooks && s'.db.events == s.db.events && s'.db.now == s.db.now
            && s'.db.orders == map["o" := row.(sessionId := Some(SESSION.id), url := NullIfEmpty(SESSION.url),
                  clientSecret := None)]
  {
    assert !SessionTaken(s.db.orders, "o", SESSION.id);
  }

  /** The run up to the point where the sweep cancels the order while Stripe takes its time. */
  lemma OrderSwept() returns (tr: seq<State>, acts: seq<Action>, k: Cart)
    ensures Run(tr, acts) && k.pc == CreateSession(DRAFT) && k.request == CART && !k.cut
    ensures Last(tr).carts == map[0 := k] && Last(tr).db.now == STALE_ORDER + 1
    ensures Last(tr).db.orders == map["o" := Swept(RowFor(k, DRAFT, 0), STALE_ORDER + 1)]
    ensures Swept(RowFor(k, DRAFT, 0), STALE_ORDER + 1).status == Canceled
  {
    CartIsBuyable();
    tr, acts, k := OrderPlaced(CART, "", CATALOG, DRAFT, map[]);
    tr, acts := Extend(tr, acts, Tick(STALE_ORDER + 1));
    SweepStep(Last(tr), k);
    tr, acts := Extend(tr, acts, Sweep);
  }

  lemma StripeStep(s: State, k: Cart)
    requires s.carts == map[0 := k] && k.pc == CreateSession(DRAFT)
    ensures Enabled(s, CartStep(0, StripeReply(SESSION)))
    ensures var k' := k.(pc := Persist(DRAFT, 0, SESSION), calls := k.calls + [StripeCreate(Some(SESSION))]);
            Step(s, CartStep(0, StripeReply(SESSION))) == s.(carts := map[0 := k'])
  {
  }

  /** Were the context of a request to live on for as long as Stripe takes, a checkout kept
      waiting past the sweep would store its session on a canceled order and report success
      all the same. */
  lemma UnlimitedCheckoutReturnsCanceledOrder() returns (tr: seq<State>, acts: seq<Action>, r: CheckoutResult)
    ensures Run(tr, acts) && Last(tr).db.now == STALE_ORDER + 1 && 0 in Last(tr).carts
    ensures Last(tr).carts[0].pc == Finished(Created(r), STALE_ORDER + 1)
    ensures r.orderId in Last(tr).db.orders && Last(tr).db.orders[r.orderId].status == Canceled
    ensures Last(tr).db.orders[r.orderId].sessionId == Some(r.sessionId)
  {
    var k;
    tr, acts, k := OrderSwept();
    StripeStep(Last(tr), k);
    tr, acts := Extend(tr, acts, CartStep(0, StripeReply(SESSION)));
    var k' := k.(pc := Persist(DRAFT, 0, SESSION), calls := k.calls + [StripeCreate(Some(SESSION))]);
    PersistStep(Last(tr), k', Swept(RowFor(k, DRAFT, 0), STALE_ORDER + 1));
    tr, acts := Extend(tr, acts, CartStep(0, Proceeds));
    r := BuildCheckoutResult(DRAFT, HOSTED, SESSION);
  }

  lemma NeverLate(tr: seq<State>, acts: seq<Action>, limit: Time)
    requires Run(tr, acts) && Last(tr).db.now <= limit
    ensures TimelyCheckouts(tr, acts, limit)
  {
    forall i | 0 <= i < |acts|
      ensures TimelyCartAt(tr, acts, limit, i)
    {
      Runs.PayloadsFixed(tr, acts, i, |tr| - 1);
    }
  }

  /** A request limit keeps sessions off canceled orders, in every run, if and only if it is
      no longer than the fifteen minutes after which the sweep cancels. */
  lemma LimitProtectsIff(limit: Time)
    ensures (forall tr: seq<State>, acts: seq<Action>, i: nat :: TimelyCheckouts(tr, acts, limit) && i < |tr| ==>
               SessionsLive(tr[i].db.orders))
            <==> limit <= 900_000
  {
    if limit <= STALE_ORDER {
      forall tr: seq<State>, acts: seq<Action>, i: nat | TimelyCheckouts(tr, acts, limit) && i < |tr|
        ensures SessionsLive(tr[i].db.orders)
      {
        TimelySessionsAreLive(tr, acts, limit, i);
      }
    } else {
      var tr, acts, r := UnlimitedCheckoutReturnsCanceledOrder();
      NeverLate(tr, acts, limit);
      assert !SessionsLive(tr[|tr| - 1].db.orders);
    }
  }

  // ---- An event its order turns away -------------------------------------------------

  /** The handler still has its order to look up. */
  predicate StillToBuild(h: Hook) {
    HookRunning(h) && !h.pc.Complete? && !h.pc.ReportFailure?
  }

  lemma SoloStep(s: State, t: Tid, pick: Option<OrderId>)
    requires t in s.hooks && s.hooks[t].event in s.payloads && HookRunning(s.hooks[t])
    requires StillToBuild(s.hooks[t]) ==> Finds(s.db.orders, LookupFor(s.payloads[s.hooks[t].event]), pick)
    ensures var c, p := HookChoice(false, pick), s.payloads[s.hooks[t].event];
            && Enabled(s, HookStep(t, c))
            && var s' := Step(s, HookStep(t, c));
               && s'.db == HookDb(s.db, p, s.hooks[t], c) && t in s'.hooks
               && s'.hooks[t] == HookNext(s.db, p, s.hooks[t], c) && s'.hooks[t].event == s.hooks[t].event
               && s'.payloads == s.payloads && s'.carts == s.carts
               && (forall u :: u in s'.hooks <==> u in s.hooks)
               && (StillToBuild(s'.hooks[t]) ==> StillToBuild(s.hooks[t]) && s'.db.orders == s.db.orders)
  {
  }

  /** A delivery that nobody interferes with is a run. */
  lemma {:induction false} SoloIsARun(tr: seq<State>, acts: seq<Action>, t: Tid, pick: Option<OrderId>, n: nat)
    returns (tr': seq<State>, acts': seq<Action>)
    requires Run(tr, acts) && t in Last(tr).hooks && Last(tr).hooks[t].event in Last(tr).payloads
    requires StillToBuild(Last(tr).hooks[t]) ==>
               Finds(Last(tr).db.orders, LookupFor(Last(tr).payloads[Last(tr).hooks[t].event]), pick)
    ensures Run(tr', acts') && Last(tr').payloads == Last(tr).payloads && Last(tr').carts == Last(tr).carts
    ensures t in Last(tr').hooks && forall u :: u in Last(tr').hooks <==> u in Last(tr).hooks
    ensures (Last(tr').db, Last(tr').hooks[t])
            == Solo(Last(tr).db, Last(tr).payloads[Last(tr).hooks[t].event], Last(tr).hooks[t], pick, n)
    decreases n
  {
    tr', acts' := tr, acts;
    if n > 0 && HookRunning(Last(tr).hooks[t]) {
      SoloStep(Last(tr), t, pick);
      var tr1, acts1 := Extend(tr, acts, HookStep(t, HookChoice(false, pick)));
      tr', acts' := SoloIsARun(tr1, acts1, t, pick, n - 1);
    }
  }

  lemma DeliveredAlone(tr: seq<State>, acts: seq<Action>, t: Tid, e: EventId, pick: Option<OrderId>)
    returns (tr': seq<State>, acts': seq<Action>)
    requires Run(tr, acts) && t !in Last(tr).hooks && e in Last(tr).payloads && Handled(Last(tr).payloads[e])
    requires Finds(Last(tr).db.orders, LookupFor(Last(tr).payloads[e]), pick)
    ensures Run(tr', acts') && Last(tr').payloads == Last(tr).payloads
    ensures t in Last(tr').hooks && forall u :: u in Last(tr').hooks ==> u == t || u in Last(tr).hooks
    ensures EndsAs(Last(tr).db, Last(tr).payloads[e], e, pick, (Last(tr').db, Last(tr').hooks[t]))
  {
    tr', acts' := Extend(tr, acts, Deliver(t, e));
    DeliveryAnsweredExactly(tr, acts, |tr| - 1, e, pick);
    tr', acts' := SoloIsARun(tr', acts', t, pick, 5);
  }

  const CLOSED := Session("cs_1", true, SessionUnpaid, 100, "usd", None)

  /** An order with a session. */
  lemma SessionStored(payloads: map<EventId, Payload>) returns (tr: seq<State>, acts: seq<Action>)
    ensures Run(tr, acts) && Last(tr).payloads == payloads && Last(tr).hooks == map[]
    ensures Last(tr).db.events == map[] && Last(tr).db.orders.Keys == {"o"}
    ensures Last(tr).db.orders["o"].sessionId == Some("cs_1") && Last(tr).db.orders["o"].status == Pending
  {
    CartIsBuyable();
    var k;
    tr, acts, k := OrderPlaced(CART, "", CATALOG, DRAFT, payloads);
    StripeStep(Last(tr), k);
    tr, acts := Extend(tr, acts, CartStep(0, StripeReply(SESSION)));
    var k' := k.(pc := Persist(DRAFT, 0, SESSION), calls := k.calls + [StripeCreate(Some(SESSION))]);
    PersistStep(Last(tr), k', RowFor(k, DRAFT, 0));
    tr, acts := Extend(tr, acts, CartStep(0, Proceeds));
  }

  lemma ExpiryAccepted(orders: map<OrderId, Order>, p: Payload)
    requires orders.Keys == {"o"} && orders["o"].sessionId == Some("cs_1") && orders["o"].status == Pending
    requires p == SessionExpired(CLOSED)
    ensures Finds(orders, LookupFor(p), Some("o")) && Accepts(orders, p, Some("o"))
    ensures Meant(orders, p, Some("o"), "o")
  {
  }

  lemma FailureTurnedAway(orders: map<OrderId, Order>, p: Payload)
    requires orders.Keys == {"o"} && orders["o"].sessionId == Some("cs_1") && orders["o"].status == Expired
    requires p == AsyncFailed(CLOSED)
    ensures Finds(orders, LookupFor(p), Some("o")) && !Accepts(orders, p, Some("o")) && TurnedAway(orders, p, Some("o"))
  {
    assert Meant(orders, p, Some("o"), "o");
  }

  /** A run in which a session expires and an asynchronous failure is reported for it: the
      order's status turns the second event away, and it is left in flight, not failed. */
  lemma TurnedAwayEventStaysInFlight() returns (tr: seq<State>, acts: seq<Action>)
    ensures Run(tr, acts) && 1 in Last(tr).hooks && Last(tr).hooks[1].pc == Done(ProcessingFailed)
    ensures "failed" in Last(tr).db.events && Last(tr).db.events["failed"].status == InFlight
    ensures Last(tr).db.events["failed"].startedAt == Some(Last(tr).db.now)
  {
    var expired, failed := SessionExpired(CLOSED), AsyncFailed(CLOSED);
    assert "expired" != "failed";
    tr, acts := SessionStored(map["expired" := expired, "failed" := failed]);
    ExpiryAccepted(Last(tr).db.orders, expired);
    tr, acts := DeliveredAlone(tr, acts, 0, "expired", Some("o"));
    FailureTurnedAway(Last(tr).db.orders, failed);
    tr, acts := DeliveredAlone(tr, acts, 1, "failed", Some("o"));
  }
}
