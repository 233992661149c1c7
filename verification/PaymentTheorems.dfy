/** From checkout to money: what the stored total is worth, and when a payment reported by
    Stripe is recorded. */
module PaymentTheorems {
  import opened Domain
  import opened Pricing
  import opened Validation
  import opened Tables
  import opened WebhookProgram
  import opened CheckoutProgram
  import opened Protocol
  import opened Invariants
  import opened Moving
  import opened Runs
  import opened SagaTheorems
  import opened CheckoutTheorems
  import opened DeliveryTheorems
  import opened EventTheorems
  import ThreadInvariants

  // ---- Stored totals -----------------------------------------------------------------

  /** The table takes an order with these lines and their 32-bit total. */
  predicate Storable(lines: seq<Line>) {
    WrapTotal(lines) > 0 && LinesPassChecks(lines)
  }

  /** Up to that price, an order whose total has wrapped is refused by the table, before
      Stripe is asked for a session. */
  lemma WrappedIsRefused(db: Db, id: OrderId, row: Order)
    requires AcceptedLines(row.lines, SAFE_STORED_UNIT) && row.total == WrapTotal(row.lines)
    requires row.total != ExactTotal(row.lines)
    ensures CreateOrderWithItems(db, id, row) == Err(CheckViolation)
  {
    if row.total > 0 {
      PositiveTotalIsExact(row.lines, SAFE_STORED_UNIT);
    }
  }

  /** Twenty lines of ninety-nine, one cent dearer, are stored at 11.84 and charged at
      42,949,684.80. */
  lemma DearestCartIsStored()
    ensures var lines := DearestCart(MAX_ITEMS, SAFE_STORED_UNIT + 1);
            && AcceptedLines(lines, SAFE_STORED_UNIT + 1) && Storable(lines)
            && WrapTotal(lines) == 1_184 && ExactTotal(lines) == 4_294_968_480
  {
    var cap := SAFE_STORED_UNIT + 1;
    var lines := DearestCart(MAX_ITEMS, cap);
    DearestCartTotal(MAX_ITEMS, cap);
    DearestCartIsAccepted(MAX_ITEMS, cap);
    TotalCongruentToStripe(lines);
    assert Wrap32(cap * MAX_QUANTITY) == 214_748_424;
  }

  /** A price cap makes every total the table takes the one Stripe charges if and only if
      it is at most 2,169,175 cents. */
  lemma StoredTotalIsExactIff(cap: int)
    ensures (forall lines :: AcceptedLines(lines, cap) && Storable(lines) ==> WrapTotal(lines) == ExactTotal(lines))
            <==> cap <= 2_169_175
  {
    if cap <= SAFE_STORED_UNIT {
      forall lines | AcceptedLines(lines, cap) && Storable(lines)
        ensures WrapTotal(lines) == ExactTotal(lines)
      {
        PositiveTotalIsExact(lines, cap);
      }
    } else {
      DearestCartIsStored();
      assert AcceptedLines(DearestCart(MAX_ITEMS, SAFE_STORED_UNIT + 1), cap);
    }
  }

  // ---- The same over runs ------------------------------------------------------------

  /** In every catalogue a checkout of the run reads, prices are at most `cap`. */
  ghost predicate CappedPrices(acts: seq<Action>, cap: int) {
    forall i :: 0 <= i < |acts| ==> CappedAction(acts[i], cap)
  }

  predicate CappedAction(a: Action, cap: int) {
    a.CartStep? && a.cartChoice.Catalog? ==> CappedCatalog(a.cartChoice.products, cap)
  }

  predicate CappedCatalog(products: map<string, Product>, cap: int) {
    forall p :: p in products ==> products[p].unit <= cap
  }

  ghost predicate CartLinesOk(k: Cart, cap: int) {
    AcceptedItems(k.request.items) && (k.pc.InsertOrder? ==> AcceptedLines(k.pc.draft.lines, cap))
  }

  ghost predicate LinesInv(s: State, cap: int) {
    && (forall t :: t in s.carts ==> CartLinesOk(s.carts[t], cap))
    && (forall id :: id in s.born ==> AcceptedLines(s.born[id].row.lines, cap))
  }

  lemma PricedLinesAccepted(items: seq<Item>, products: map<string, Product>, cap: int)
    requires AcceptedItems(items) && ValidCatalog(products) && CappedCatalog(products, cap)
    requires PriceItems(items, products).Ok?
    ensures AcceptedLines(PriceItems(items, products).value.lines, cap)
  {
    PricedLines(items, products);
    var lines := PriceItems(items, products).value.lines;
    forall i | 0 <= i < |lines|
      ensures lines[i] == MakeLine(items[i], products[items[i].productId]) && ItemOk(items[i])
    {
    }
  }

  lemma ActorLines(db: Db, k: Cart, c: CartChoice, cap: int)
    requires CartLinesOk(k, cap) && CartEnabled(db, k, c)
    requires c.Catalog? ==> CappedCatalog(c.products, cap)
    ensures CartLinesOk(CartNext(db, k, c), cap)
  {
    ThreadInvariants.SameRequest(db, k, c);
    var k' := CartNext(db, k, c);
    if k.pc.Price? && k'.pc.InsertOrder? {
      PricedLinesAccepted(k.request.items, c.products, cap);
    }
  }

  lemma LinesKeptByCart(s: State, t: Tid, c: CartChoice, cap: int)
    requires LinesInv(s, cap) && Enabled(s, CartStep(t, c)) && CappedAction(CartStep(t, c), cap)
    ensures LinesInv(Step(s, CartStep(t, c)), cap)
  {
    CartStepShape(s, t, c);
    assert CartLinesOk(s.carts[t], cap);
    ActorLines(s.db, s.carts[t], c, cap);
    if Inserts(s, t, c) {
      InsertedMine(s, t, c);
    }
  }

  lemma BystanderLines(s: State, t: Tid, k: Cart, cap: int)
    requires LinesInv(s, cap) && Bystander(s, t, k)
    ensures CartLinesOk(k, cap)
  {
    if t in s.carts {
      assert CartLinesOk(s.carts[t], cap);
    }
  }

  lemma LinesKept(s: State, a: Action, cap: int)
    requires LinesInv(s, cap) && Enabled(s, a) && CappedAction(a, cap)
    ensures LinesInv(Step(s, a), cap)
  {
    if a.CartStep? {
      LinesKeptByCart(s, a.t, a.cartChoice, cap);
    } else {
      var s' := Step(s, a);
      QuietBirths(s, a);
      forall t | t in s'.carts
        ensures CartLinesOk(s'.carts[t], cap)
      {
        BystanderCarts(s, a, t);
        BystanderLines(s, t, s'.carts[t], cap);
      }
    }
  }

  lemma {:induction false} RunLines(tr: seq<State>, acts: seq<Action>, cap: int, i: nat)
    requires Run(tr, acts) && CappedPrices(acts, cap) && i < |tr|
    ensures LinesInv(tr[i], cap)
  {
    if i > 0 {
      RunLines(tr, acts, cap, i - 1);
      assert StepAt(tr, acts, i - 1);
      assert CappedAction(acts[i - 1], cap);
      LinesKept(tr[i - 1], acts[i - 1], cap);
    }
  }

  ghost predicate TotalExact(s: State, id: OrderId) {
    id in s.db.orders ==> s.db.orders[id].total == ExactTotal(s.db.orders[id].lines)
  }

  lemma TotalState(s: State, cap: int, id: OrderId)
    requires OrdersOk(s) && AllPriced(s) && LinesInv(s, cap) && cap <= SAFE_STORED_UNIT
    ensures TotalExact(s, id)
  {
    if id in s.db.orders {
      assert OrderOk(s.born[id], s.db.orders[id]);
      var b := s.born[id].row;
      assert PricedOk(b.total, b.lines) && AcceptedLines(b.lines, cap);
      PositiveTotalIsExact(b.lines, cap);
    }
  }

  /** With catalogue prices up to that cap, every stored total is what Stripe charges. */
  lemma StoredTotalsAreExact(tr: seq<State>, acts: seq<Action>, cap: int, i: nat, id: OrderId)
    requires Run(tr, acts) && CappedPrices(acts, cap) && cap <= SAFE_STORED_UNIT && i < |tr|
    ensures TotalExact(tr[i], id)
  {
    RunInv(tr, acts, i);
    RunLines(tr, acts, cap, i);
    TotalState(tr[i], cap, id);
  }

  // ---- When a payment is recorded ----------------------------------------------------

  /** The event reports that the session has been paid. */
  predicate ReportsPaid(p: Payload, sessionId: string) {
    Target(p) == Some(Paid) && p.session.id == sessionId
  }

  lemma LiveStatuses(status: OrderStatus)
    ensures status in {Pending, Processing, Paid, Refunded} <==> status !in {Failed, Expired, Canceled}
  {
    match status {
      case Pending =>
      case Processing =>
      case Paid =>
      case Failed =>
      case Expired =>
      case Canceled =>
      case Refunded =>
    }
  }

  lemma AcceptsPaid(orders: map<OrderId, Order>, id: OrderId, p: Payload, pick: Option<OrderId>)
    requires SessionsUnique(orders) && id in orders && Target(p) == Some(Paid)
    requires orders[id].sessionId == Some(p.session.id)
    ensures Accepts(orders, p, pick) <==>
            && MoneyAgrees(orders[id], p.session.amount, p.session.currency)
            && orders[id].status !in {Failed, Expired, Canceled}
  {
    LiveStatuses(orders[id].status);
    assert Meant(orders, p, pick, id);
    assert RowTakes(orders[id], p) <==>
           MoneyAgrees(orders[id], p.session.amount, p.session.currency)
           && orders[id].status in {Pending, Processing, Paid, Refunded};
    if Accepts(orders, p, pick) {
      var other :| Meant(orders, p, pick, other) && RowTakes(orders[other], p);
      assert other == id && RowTakes(orders[id], p);
    }
  }

  /** End to end: after any success, first or repeated, a fault-free delivery of a claimable
      event that reports the session paid is acknowledged if and only if the amounts agree,
      to the cent and in the same currency, and the order has neither failed nor expired. */
  lemma PaidEventIsAcknowledgedIff(tr: seq<State>, acts: seq<Action>, i: nat, t: Tid, e: EventId, pick: Option<OrderId>)
    requires TimelyCheckouts(tr, acts, CHECKOUT_TIMEOUT) && i < |tr| && t in tr[i].carts && Succeeded(tr[i].carts[t])
    requires e in tr[i].payloads && ReportsPaid(tr[i].payloads[e], tr[i].carts[t].pc.reply.result.sessionId)
    requires Recoverable(tr[i].db, e) && Finds(tr[i].db.orders, LookupFor(tr[i].payloads[e]), pick)
    ensures tr[i].carts[t].pc.reply.result.orderId in tr[i].db.orders
    ensures var row, x := tr[i].db.orders[tr[i].carts[t].pc.reply.result.orderId], tr[i].payloads[e].session;
            SoloRun(tr[i].db, tr[i].payloads[e], e, pick).1.pc == Done(Acknowledged)
            <==> MoneyAgrees(row, x.amount, x.currency) && row.status !in {Failed, Expired}
  {
    RunInv(tr, acts, i);
    TimelySuccessIsLive(tr, acts, i, t);
    ReplyShows(tr[i], t);
    AcceptsPaid(tr[i].db.orders, tr[i].carts[t].pc.reply.result.orderId, tr[i].payloads[e], pick);
    DeliveryAnsweredExactly(tr, acts, i, e, pick);
  }

  lemma DeadState(s: State, id: OrderId, e: EventId)
    requires EventsOk(s) && SessionsUnique(s.db.orders) && id in s.db.orders
    requires s.db.orders[id].status in {Canceled, Failed, Expired}
    requires e in s.payloads && Target(s.payloads[e]) == Some(Paid) && e in s.db.events
    requires s.db.orders[id].sessionId == Some(s.payloads[e].session.id)
    ensures s.db.events[e].status != Processed
  {
    assert EventOk(s.db.orders, s.payloads[e], s.db.events[e], s.db.now);
  }

  /** A payment reported for an order that was canceled, has failed or has expired is never
      recorded. */
  lemma DeadOrdersTakeNoPayment(tr: seq<State>, acts: seq<Action>, i: nat, j: nat, id: OrderId, e: EventId)
    requires Run(tr, acts) && i <= j < |tr| && id in tr[i].db.orders
    requires tr[i].db.orders[id].status in {Canceled, Failed, Expired}
    requires e in tr[i].payloads && Target(tr[i].payloads[e]) == Some(Paid)
    requires tr[i].db.orders[id].sessionId == Some(tr[i].payloads[e].session.id)
    ensures e in tr[j].db.events ==> tr[j].db.events[e].status != Processed
  {
    OrderEvolves(tr, acts, i, j, id);
    PayloadsFixed(tr, acts, i, j);
    RunInv(tr, acts, j);
    if e in tr[j].db.events {
      DeadState(tr[j], id, e);
    }
  }

  // ---- What decides a status ---------------------------------------------------------

  /** The status an order has because of what has been committed for it and who has
      canceled it. */
  ghost function Decided(tr: seq<State>, acts: seq<Action>, i: nat, id: OrderId): OrderStatus
    requires i < |tr| && |tr| == |acts| + 1
  {
    match Verdict(tr[i], id)
    case Some(status) => status
    case None => if SweptBefore(tr, acts, i, id) || CreatorCanceled(tr[i], id) then Canceled else Pending
  }

  /** In every reachable state an order's status is decided by which events have been
      committed for it and, if none has that asked for one, by whether a sweep or its own
      checkout has canceled it. */
  lemma StatusIsDecided(tr: seq<State>, acts: seq<Action>, i: nat, id: OrderId)
    requires Run(tr, acts) && i < |tr| && id in tr[i].db.orders
    ensures tr[i].db.orders[id].status == Decided(tr, acts, i, id)
  {
    StatusIsVerdict(tr, acts, i, id);
    CanceledExactly(tr, acts, i, id);
  }
}
