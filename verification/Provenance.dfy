/** Every action keeps the provenance of every order status. */
module Provenance {
  import opened Domain
  import opened Tables
  import opened WebhookProgram
  import opened CheckoutProgram
  import opened Protocol
  import opened Rows
  import opened Invariants
  import opened Completions
  import opened Moving
  import opened TableInvariants

  lemma CauseStable(s: State, s': State, actor: Option<Tid>, e: EventId, id: OrderId, target: OrderStatus)
    requires Moves(s, s', actor) && EventsOk(s) && Cause(s, e, id, target)
    ensures Cause(s', e, id, target)
  {
    assert Handled(s.payloads[e]);
    assert s'.db.events[e] == s.db.events[e];
    ConcernsStable(s.db.orders[id], s'.db.orders[id], s.payloads[e]);
    AgreesStable(s.db.orders[id], s'.db.orders[id], s.payloads[e]);
  }

  lemma HasCauseStable(s: State, s': State, actor: Option<Tid>, id: OrderId, target: OrderStatus)
    requires Moves(s, s', actor) && EventsOk(s) && HasCause(s, id, target)
    ensures HasCause(s', id, target)
  {
    var e :| Cause(s, e, id, target);
    CauseStable(s, s', actor, e, id, target);
  }

  lemma CauseOkStable(s: State, s': State, actor: Option<Tid>, id: OrderId, status: OrderStatus)
    requires Moves(s, s', actor) && EventsOk(s) && CauseOk(s, id, status)
    ensures CauseOk(s', id, status)
  {
    if status in {Processing, Failed, Expired} {
      HasCauseStable(s, s', actor, id, status);
    }
    if Settled(status) {
      HasCauseStable(s, s', actor, id, Paid);
    }
    if status == Refunded {
      HasCauseStable(s, s', actor, id, Refunded);
    }
  }

  /** What an order update changes: one status, to what the completion asks for. */
  lemma UpdateChanges(orders: map<OrderId, Order>, c: Completion, id: OrderId)
    requires UpdateOrderFor(orders, c).Ok? && id in orders
    ensures var orders' := UpdateOrderFor(orders, c).value;
            && id in orders'
            && (orders'[id].status != orders[id].status ==>
                  && c.orderId == Some(id)
                  && (if c.refundOnly then orders'[id].status == Refunded && orders[id].status == Paid
                      else c.newStatus == Some(orders'[id].status)))
  {
  }

  lemma HookStatus(db: Db, p: Payload, h: Hook, c: HookChoice, id: OrderId)
    requires id in db.orders && id in HookDb(db, p, h, c).orders
    requires HookDb(db, p, h, c).orders[id].status != db.orders[id].status
    ensures h.pc.Complete? && CompleteTx(db, h.pc.completion) == Ok(HookDb(db, p, h, c))
    ensures UpdateOrderFor(db.orders, h.pc.completion) == Ok(HookDb(db, p, h, c).orders)
  {
    if h.pc.Complete? && CompleteTx(db, h.pc.completion).Ok? {
      CommitEffect(db, h.pc.completion);
    }
  }

  /** The committing event accounts for the status it set. */
  lemma CommitCause(s: State, s': State, e: EventId, c: Completion, at: Time, id: OrderId)
    requires OrdersOk(s) && EventsOk(s) && e in s.payloads && Handled(s.payloads[e]) && s'.payloads == s.payloads
    requires CompletionOk(s.db.orders, e, s.payloads[e], c, at) && CompleteTx(s.db, c) == Ok(s'.db)
    requires id in s.db.orders && id in s'.db.orders && s'.db.orders[id].status != s.db.orders[id].status
    ensures Cause(s', e, id, s'.db.orders[id].status)
    ensures s'.db.orders[id].status in {Paid, Processing, Failed, Expired, Refunded}
    ensures s'.db.orders[id].status == Refunded ==> s.db.orders[id].status == Paid
  {
    CommitEffect(s.db, c);
    CommitMoves(s, s', e, c, at);
    CompletionFacts(s.db.orders, e, s.payloads[e], c, at);
    UpdateChanges(s.db.orders, c, id);
    ConcernsStable(s.db.orders[id], s'.db.orders[id], s.payloads[e]);
    AgreesStable(s.db.orders[id], s'.db.orders[id], s.payloads[e]);
  }

  lemma CauseKeptByHook(s: State, s': State, h: Hook, c: HookChoice, id: OrderId)
    requires OrdersOk(s) && EventsOk(s) && h.event in s.payloads && HookOk(s.db, s.payloads[h.event], h)
    requires Moves(s, s', None) && s'.db == HookDb(s.db, s.payloads[h.event], h, c)
    requires id in s.db.orders && id in s'.db.orders && CauseOk(s, id, s.db.orders[id].status)
    ensures CauseOk(s', id, s'.db.orders[id].status)
  {
    CauseOkStable(s, s', None, id, s.db.orders[id].status);
    if s'.db.orders[id].status != s.db.orders[id].status {
      HookStatus(s.db, s.payloads[h.event], h, c, id);
      CommitCause(s, s', h.event, h.pc.completion, h.pc.builtAt, id);
    }
  }

  lemma CausesKeptByHook(s: State, t: Tid, c: HookChoice)
    requires OrdersOk(s) && EventsOk(s) && HooksOk(s) && CausesOk(s) && Enabled(s, HookStep(t, c))
    ensures CausesOk(Step(s, HookStep(t, c)))
  {
    var s' := Step(s, HookStep(t, c));
    HookStepShape(s, t, c);
    HookKnown(s, t);
    HookMoves(s, t, c);
    HookDomain(s.db, s.payloads[s.hooks[t].event], s.hooks[t], c);
    CausesByHook(s, s', s.hooks[t], c);
  }

  lemma CausesByHook(s: State, s': State, h: Hook, c: HookChoice)
    requires OrdersOk(s) && EventsOk(s) && CausesOk(s) && h.event in s.payloads && HookOk(s.db, s.payloads[h.event], h)
    requires Moves(s, s', None) && s'.db == HookDb(s.db, s.payloads[h.event], h, c)
    requires forall id :: id in s'.db.orders <==> id in s.db.orders
    ensures CausesOk(s')
  {
    forall id | id in s'.db.orders
      ensures CauseOk(s', id, s'.db.orders[id].status)
    {
      CauseKeptByHook(s, s', h, c, id);
    }
  }

  /** Without a handler's step, statuses stay or become canceled, and new orders are pending. */
  lemma CausesUndisturbed(s: State, s': State, actor: Option<Tid>)
    requires EventsOk(s) && CausesOk(s) && Moves(s, s', actor)
    requires forall id :: id in s'.db.orders ==>
               if id in s.db.orders
               then s'.db.orders[id].status == s.db.orders[id].status || s'.db.orders[id].status == Canceled
               else s'.db.orders[id].status == Pending
    ensures CausesOk(s')
  {
    forall id | id in s'.db.orders
      ensures CauseOk(s', id, s'.db.orders[id].status)
    {
      if id in s.db.orders {
        CauseOkStable(s, s', actor, id, s.db.orders[id].status);
      }
    }
  }

  lemma CartStatuses(db: Db, k: Cart, c: CartChoice)
    ensures forall id :: id in CartDb(db, k, c).orders ==>
              if id in db.orders
              then CartDb(db, k, c).orders[id].status == db.orders[id].status
                  || CartDb(db, k, c).orders[id].status == Canceled
              else CartDb(db, k, c).orders[id].status == Pending
  {
    if k.pc.InsertOrder? && CreateOrderWithItems(db, k.pc.draft.id, RowFor(k, k.pc.draft, db.now)).Ok? {
      InsertEffect(db, k.pc.draft.id, RowFor(k, k.pc.draft, db.now));
    }
  }

  lemma CausesKeptByCart(s: State, t: Tid, c: CartChoice)
    requires OrdersOk(s) && EventsOk(s) && CartsOk(s) && CausesOk(s) && Enabled(s, CartStep(t, c))
    ensures CausesOk(Step(s, CartStep(t, c)))
  {
    CartStepShape(s, t, c);
    CartMoves(s, t, c);
    CartStatuses(s.db, s.carts[t], c);
    CausesUndisturbed(s, Step(s, CartStep(t, c)), Some(t));
  }

  lemma SweptStatuses(s: State)
    ensures forall id :: id in Step(s, Sweep).db.orders ==>
              id in s.db.orders
              && (Step(s, Sweep).db.orders[id].status == s.db.orders[id].status
                    || Step(s, Sweep).db.orders[id].status == Canceled)
  {
  }

  lemma CausesKeptBySweep(s: State)
    requires OrdersOk(s) && EventsOk(s) && CausesOk(s)
    ensures CausesOk(Step(s, Sweep))
  {
    SweepMoves(s);
    SweptStatuses(s);
    CausesUndisturbed(s, Step(s, Sweep), None);
  }

  lemma CausesKept(s: State, a: Action)
    requires OrdersOk(s) && EventsOk(s) && HooksOk(s) && CartsOk(s) && CausesOk(s) && Enabled(s, a)
    ensures CausesOk(Step(s, a))
  {
    match a {
      case HookStep(t, c) => CausesKeptByHook(s, t, c);
      case CartStep(t, c) => CausesKeptByCart(s, t, c);
      case Sweep => CausesKeptBySweep(s);
      case _ =>
        QuietMoves(s, a);
        CausesUndisturbed(s, Step(s, a), None);
    }
  }
}
