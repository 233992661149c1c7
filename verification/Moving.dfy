/** Every action moves every row within the bounds of `Moves`. */
module Moving {
  import opened Domain
  import opened Validation
  import opened Tables
  import opened WebhookProgram
  import opened CheckoutProgram
  import opened Protocol
  import opened Rows
  import opened Invariants
  import opened Completions

  /** The checkout taking the step, if one does. */
  function Actor(a: Action): Option<Tid> {
    if a.CartStep? then Some(a.t) else None
  }

  ghost predicate AllBorn(s: State) {
    forall id :: id in s.db.orders ==> id in s.born
  }

  lemma SameOrdersMove(s: State, s': State, actor: Option<Tid>)
    requires AllBorn(s) && s'.db.orders == s.db.orders
    ensures OrdersMove(s, s', actor)
  {
    forall id | id in s.db.orders
      ensures RowMoves(s.db.orders[id], s'.db.orders[id], actor == Some(s.born[id].creator), s.db.now)
    {
      RowStays(s.db.orders[id], actor == Some(s.born[id].creator), s.db.now);
    }
  }

  /** One row changed, the others did not. */
  lemma OneOrderMoves(s: State, s': State, actor: Option<Tid>, id: OrderId, row: Order)
    requires AllBorn(s) && id in s.db.orders && s'.db.orders == s.db.orders[id := row]
    requires RowMoves(s.db.orders[id], row, actor == Some(s.born[id].creator), s.db.now)
    ensures OrdersMove(s, s', actor)
  {
    forall other | other in s.db.orders
      ensures other in s'.db.orders
      ensures RowMoves(s.db.orders[other], s'.db.orders[other], actor == Some(s.born[other].creator), s.db.now)
    {
      if other != id {
        RowStays(s.db.orders[other], actor == Some(s.born[other].creator), s.db.now);
      }
    }
  }

  lemma SameEventsMove(s: State, s': State)
    requires EventsOk(s) && s'.db.events == s.db.events
    ensures EventsMove(s, s')
  {
  }

  lemma OneEventMoves(s: State, s': State, e: EventId, row: EventRow)
    requires EventsOk(s) && e in s.db.events && s'.db.events == s.db.events[e := row]
    requires EventMoves(Handled(s.payloads[e]), s.db.events[e], row, s.db.now)
    ensures EventsMove(s, s')
  {
    forall other | other in s.db.events
      ensures other in s'.db.events && other in s.payloads
      ensures EventMoves(Handled(s.payloads[other]), s.db.events[other], s'.db.events[other], s.db.now)
    {
    }
  }

  lemma SweepMoves(s: State)
    requires OrdersOk(s) && EventsOk(s)
    ensures Moves(s, Step(s, Sweep), None)
  {
    var s' := Step(s, Sweep);
    forall id | id in s.db.orders
      ensures id in s'.db.orders && id in s.born
      ensures RowMoves(s.db.orders[id], s'.db.orders[id], false, s.db.now)
    {
      SweptMoves(s.db.orders[id], s.db.now);
    }
    SameEventsMove(s, s');
  }

  // ---- Handlers --------------------------------------------------------------------

  /** The order table after the order part of the completing transaction. */
  lemma UpdateMoves(s: State, s': State, e: EventId, p: Payload, c: Completion, at: Time)
    requires OrdersOk(s) && CompletionOk(s.db.orders, e, p, c, at)
    requires UpdateOrderFor(s.db.orders, c) == Ok(s'.db.orders)
    ensures OrdersMove(s, s', None)
  {
    CompletionFacts(s.db.orders, e, p, c, at);
    if c.refundOnly && Refundable(s.db.orders, c.orderId.value) {
      var id := c.orderId.value;
      assert OrderOk(s.born[id], s.db.orders[id]);
      RefundMoves(s.db.orders[id], s.db.now);
      OneOrderMoves(s, s', None, id, s.db.orders[id].(status := Refunded));
    } else if !c.refundOnly && c.newStatus.Some? && Advanceable(s.db.orders, c, c.orderId.value) {
      var id := c.orderId.value;
      AdvanceMoves(s.db.orders[id], c, c.newStatus.value, s.db.now);
      OneOrderMoves(s, s', None, id, Advance(s.db.orders[id], c, c.newStatus.value));
    } else {
      SameOrdersMove(s, s', None);
    }
  }

  lemma CommitEffect(db: Db, c: Completion)
    requires CompleteTx(db, c).Ok?
    ensures var db' := CompleteTx(db, c).value;
            && UpdateOrderFor(db.orders, c) == Ok(db'.orders) && db'.now == db.now
            && c.event in db.events && db.events[c.event].status == InFlight
            && db'.events == db.events[c.event := db.events[c.event].(
                               status := Processed, processedAt := Some(db.now),
                               orderId := Coalesce(c.orderId, db.events[c.event].orderId))]
  {
  }

  lemma CommitMoves(s: State, s': State, e: EventId, c: Completion, at: Time)
    requires OrdersOk(s) && EventsOk(s) && e in s.payloads && Handled(s.payloads[e])
    requires CompletionOk(s.db.orders, e, s.payloads[e], c, at) && CompleteTx(s.db, c) == Ok(s'.db)
    ensures OrdersMove(s, s', None) && EventsMove(s, s')
  {
    CommitEffect(s.db, c);
    CompletionFacts(s.db.orders, e, s.payloads[e], c, at);
    UpdateMoves(s, s', e, s.payloads[e], c, at);
    OneEventMoves(s, s', e, s'.db.events[e]);
  }

  lemma CompleteMoves(s: State, s': State, h: Hook, c: HookChoice)
    requires OrdersOk(s) && EventsOk(s) && h.event in s.payloads && HookOk(s.db, s.payloads[h.event], h)
    requires h.pc.Complete? && s'.db == HookDb(s.db, s.payloads[h.event], h, c)
    ensures OrdersMove(s, s', None) && EventsMove(s, s')
  {
    if s'.db == s.db {
      SameOrdersMove(s, s', None);
      SameEventsMove(s, s');
    } else {
      CommitMoves(s, s', h.event, h.pc.completion, h.pc.builtAt);
    }
  }

  /** Any other step of a handler leaves the orders alone and touches at most its event. */
  lemma EventOnlyEffect(db: Db, p: Payload, h: Hook, c: HookChoice)
    requires !h.pc.Complete? && HookOk(db, p, h)
    ensures var db' := HookDb(db, p, h, c);
            && db'.orders == db.orders && db'.now == db.now
            && (|| db'.events == db.events
                || (h.event !in db.events
                    && db'.events == db.events[h.event := EventRow(Received, None, db.now, None, None)])
                || (h.event in db.events && h.event in db'.events
                    && db'.events == db.events[h.event := db'.events[h.event]]
                    && EventMoves(Handled(p), db.events[h.event], db'.events[h.event], db.now)))
  {
  }

  lemma EventOnlyMoves(s: State, s': State, h: Hook, c: HookChoice)
    requires OrdersOk(s) && EventsOk(s) && h.event in s.payloads && HookOk(s.db, s.payloads[h.event], h)
    requires !h.pc.Complete? && s'.db == HookDb(s.db, s.payloads[h.event], h, c)
    ensures OrdersMove(s, s', None) && EventsMove(s, s')
  {
    EventOnlyEffect(s.db, s.payloads[h.event], h, c);
    SameOrdersMove(s, s', None);
    if h.event in s.db.events && s'.db.events != s.db.events {
      OneEventMoves(s, s', h.event, s'.db.events[h.event]);
    }
  }

  /** What is known of one running handler. */
  lemma HookKnown(s: State, t: Tid)
    requires HooksOk(s) && t in s.hooks
    ensures s.hooks[t].event in s.payloads && HookOk(s.db, s.payloads[s.hooks[t].event], s.hooks[t])
  {
  }

  lemma CartKnown(s: State, t: Tid)
    requires CartsOk(s) && t in s.carts
    ensures CartOk(s, t, s.carts[t])
  {
  }

  /** A handler's step, spelled out. */
  lemma HookStepShape(s: State, t: Tid, c: HookChoice)
    requires Enabled(s, HookStep(t, c))
    ensures var s', h, p := Step(s, HookStep(t, c)), s.hooks[t], s.payloads[s.hooks[t].event];
            && s'.db == HookDb(s.db, p, h, c) && s'.hooks == s.hooks[t := HookNext(s.db, p, h, c)]
            && s'.payloads == s.payloads && s'.carts == s.carts && s'.born == s.born
            && HookNext(s.db, p, h, c).event == h.event && s'.db.now == s.db.now
  {
  }

  lemma HookMoves(s: State, t: Tid, c: HookChoice)
    requires OrdersOk(s) && EventsOk(s) && HooksOk(s) && Enabled(s, HookStep(t, c))
    ensures Moves(s, Step(s, HookStep(t, c)), None)
  {
    var s' := Step(s, HookStep(t, c));
    HookStepShape(s, t, c);
    HookKnown(s, t);
    if s.hooks[t].pc.Complete? {
      CompleteMoves(s, s', s.hooks[t], c);
    } else {
      EventOnlyMoves(s, s', s.hooks[t], c);
    }
  }

  // ---- Checkouts -------------------------------------------------------------------

  lemma AnyoneMoves(a: Order, b: Order, mine: bool, now: Time)
    requires RowMoves(a, b, false, now)
    ensures RowMoves(a, b, mine, now)
  {
  }

  lemma InsertEffect(db: Db, id: OrderId, row: Order)
    requires CreateOrderWithItems(db, id, row).Ok?
    ensures var db' := CreateOrderWithItems(db, id, row).value;
            && id !in db.orders && db'.orders == db.orders[id := row] && db'.events == db.events && db'.now == db.now
            && row.total > 0
            && (forall other :: other in db.orders ==> row.key.Some? ==> db.orders[other].key != row.key)
  {
  }

  /** What a checkout's step leaves of the database, by program counter. */
  lemma CartDbCases(db: Db, k: Cart, c: CartChoice)
    ensures CartDb(db, k, c).events == db.events && CartDb(db, k, c).now == db.now
    ensures CartDb(db, k, c) != db ==>
              !c.Fault? && (k.pc.Clear? || k.pc.RenewToken? || k.pc.InsertOrder? || k.pc.Persist? || k.pc.Cancel?)
  {
  }

  lemma InsertMoves(s: State, s': State, actor: Option<Tid>, id: OrderId, row: Order)
    requires AllBorn(s) && id !in s.db.orders && s'.db.orders == s.db.orders[id := row]
    ensures OrdersMove(s, s', actor)
  {
    forall other | other in s.db.orders
      ensures other in s'.db.orders
      ensures RowMoves(s.db.orders[other], s'.db.orders[other], actor == Some(s.born[other].creator), s.db.now)
    {
      RowStays(s.db.orders[other], actor == Some(s.born[other].creator), s.db.now);
    }
  }

  /** A checkout's own order, before it has a session. */
  lemma OwnedRow(s: State, t: Tid, k: Cart, d: Draft)
    requires OrdersOk(s) && Owns(s, t, k, d)
    ensures d.id in s.db.orders && d.id in s.born && s.born[d.id].creator == t && AllBorn(s)
    ensures s.db.orders[d.id].sessionId.None?
    ensures s.db.orders[d.id].status == Pending || s.db.orders[d.id].status == Canceled
  {
    assert OrderOk(s.born[d.id], s.db.orders[d.id]);
  }

  lemma PersistMoves(s: State, s': State, t: Tid, id: OrderId, x: StripeSession)
    requires AllBorn(s) && id in s.db.orders && s.born[id].creator == t && s.db.orders[id].sessionId.None? && x.id != ""
    requires s'.db.orders == UpdateOrderSession(s.db, id, x.id, x.url, x.clientSecret).orders
    ensures OrdersMove(s, s', Some(t))
  {
    SessionMoves(s.db.orders[id], x.id, x.url, x.clientSecret, s.db.now);
    OneOrderMoves(s, s', Some(t), id, s'.db.orders[id]);
  }

  lemma CancelStepMoves(s: State, s': State, t: Tid, id: OrderId, reason: string)
    requires AllBorn(s) && id in s.db.orders && s.born[id].creator == t && s.db.orders[id].sessionId.None?
    requires s.db.orders[id].status == Pending || s.db.orders[id].status == Canceled
    requires s'.db.orders == CancelOrder(s.db, id, reason).orders
    ensures OrdersMove(s, s', Some(t))
  {
    CancelMoves(s.db.orders[id], reason, s.db.now);
    OneOrderMoves(s, s', Some(t), id, s'.db.orders[id]);
  }

  lemma ClearStepMoves(s: State, s': State, t: Tid, id: OrderId)
    requires AllBorn(s) && s'.db.orders == ClearKey(s.db, id).orders
    ensures OrdersMove(s, s', Some(t))
  {
    if s'.db.orders != s.db.orders {
      ClearMoves(s.db.orders[id], s.db.now);
      AnyoneMoves(s.db.orders[id], s'.db.orders[id], Some(t) == Some(s.born[id].creator), s.db.now);
      OneOrderMoves(s, s', Some(t), id, s'.db.orders[id]);
    } else {
      SameOrdersMove(s, s', Some(t));
    }
  }

  lemma TokenStepMoves(s: State, s': State, t: Tid, id: OrderId, token: string)
    requires AllBorn(s) && s'.db.orders == UpdateOrderToken(s.db, id, token).orders
    ensures OrdersMove(s, s', Some(t))
  {
    if s'.db.orders != s.db.orders {
      TokenMoves(s.db.orders[id], token, s.db.now);
      AnyoneMoves(s.db.orders[id], s'.db.orders[id], Some(t) == Some(s.born[id].creator), s.db.now);
      OneOrderMoves(s, s', Some(t), id, s'.db.orders[id]);
    } else {
      SameOrdersMove(s, s', Some(t));
    }
  }

  lemma CartOrdersMove(s: State, s': State, t: Tid, k: Cart, c: CartChoice)
    requires OrdersOk(s) && CartOk(s, t, k)
    requires s'.db.orders == CartDb(s.db, k, c).orders
    ensures OrdersMove(s, s', Some(t))
  {
    CartDbCases(s.db, k, c);
    if s'.db.orders == s.db.orders {
      SameOrdersMove(s, s', Some(t));
    } else {
      match k.pc {
        case Clear(id, _) => ClearStepMoves(s, s', t, id);
        case RenewToken(f) => TokenStepMoves(s, s', t, f.id, c.token);
        case InsertOrder(d) =>
          InsertEffect(s.db, d.id, RowFor(k, d, s.db.now));
          InsertMoves(s, s', Some(t), d.id, RowFor(k, d, s.db.now));
        case Persist(d, _, x) =>
          OwnedRow(s, t, k, d);
          PersistMoves(s, s', t, d.id, x);
        case Cancel(d, reason) =>
          OwnedRow(s, t, k, d);
          CancelStepMoves(s, s', t, d.id, reason);
      }
    }
  }

  /** History is only added to: an inserted id was not in the table. */
  lemma BirthsGrow(s: State, t: Tid, c: CartChoice)
    requires OrdersOk(s) && t in s.carts
    ensures forall id :: id in s.born ==> id in BornAfter(s, t, c) && BornAfter(s, t, c)[id] == s.born[id]
    ensures Inserts(s, t, c) ==>
              var d := s.carts[t].pc.draft;
              d.id !in s.born
              && CartDb(s.db, s.carts[t], c).orders == s.db.orders[d.id := RowFor(s.carts[t], d, s.db.now)]
  {
    if Inserts(s, t, c) {
      InsertEffect(s.db, s.carts[t].pc.draft.id, RowFor(s.carts[t], s.carts[t].pc.draft, s.db.now));
    }
  }

  lemma CartMoves(s: State, t: Tid, c: CartChoice)
    requires OrdersOk(s) && EventsOk(s) && CartsOk(s) && Enabled(s, CartStep(t, c))
    ensures Moves(s, Step(s, CartStep(t, c)), Some(t))
  {
    var s' := Step(s, CartStep(t, c));
    CartStepShape(s, t, c);
    SameEventsMove(s, s');
    CartKnown(s, t);
    CartOrdersMove(s, s', t, s.carts[t], c);
    BirthsGrow(s, t, c);
  }

  /** A checkout's step, spelled out. */
  lemma CartStepShape(s: State, t: Tid, c: CartChoice)
    requires Enabled(s, CartStep(t, c))
    ensures var s', k := Step(s, CartStep(t, c)), s.carts[t];
            && s'.db == CartDb(s.db, k, c) && s'.carts == s.carts[t := CartNext(s.db, k, c)]
            && s'.payloads == s.payloads && s'.hooks == s.hooks && s'.born == BornAfter(s, t, c)
            && s'.db.now == s.db.now && s'.db.events == s.db.events
  {
    CartDbCases(s.db, s.carts[t], c);
  }

  /** A checkout that does not take the step: as before, cut off or dead if it was running,
      or newly submitted. */
  ghost predicate Bystander(s: State, t: Tid, k: Cart) {
    if t in s.carts then
      || k == s.carts[t]
      || (CartRunning(s.carts[t]) && (k == s.carts[t].(cut := true) || k == s.carts[t].(pc := Died)))
    else
      (k.pc.Price? || k.pc.Resolve?) && k.calls == [] && k.mine == None && HashOk(k) && AcceptedItems(k.request.items)
  }

  lemma BystanderCarts(s: State, a: Action, t: Tid)
    requires Enabled(s, a) && t in Step(s, a).carts && !(a.CartStep? && a.t == t)
    ensures Bystander(s, t, Step(s, a).carts[t])
  {
  }

  /** Clock ticks, arrivals and crashes leave the tables alone. */
  lemma QuietMoves(s: State, a: Action)
    requires OrdersOk(s) && EventsOk(s) && Enabled(s, a) && !a.Sweep? && !a.HookStep? && !a.CartStep?
    ensures Moves(s, Step(s, a), None)
  {
    SameOrdersMove(s, Step(s, a), None);
    SameEventsMove(s, Step(s, a));
  }

  /** No action takes any row outside the bounds, whoever acts and whatever fails. */
  lemma StepMoves(s: State, a: Action)
    requires OrdersOk(s) && EventsOk(s) && HooksOk(s) && CartsOk(s) && Enabled(s, a)
    ensures Moves(s, Step(s, a), Actor(a))
  {
    match a {
      case Sweep => SweepMoves(s);
      case HookStep(t, c) => HookMoves(s, t, c);
      case CartStep(t, c) => CartMoves(s, t, c);
      case _ => QuietMoves(s, a);
    }
  }
}
