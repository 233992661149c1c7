/** Every action keeps the invariants of the two tables. */
module TableInvariants {
  import opened Domain
  import opened Validation
  import opened Tables
  import opened WebhookProgram
  import opened CheckoutProgram
  import opened Protocol
  import opened Rows
  import opened Invariants
  import opened Completions
  import opened Moving

  // ---- Orders ----------------------------------------------------------------------

  lemma OrderKept(b: Birth, a: Order, a': Order, mine: bool, now: Time)
    requires OrderOk(b, a) && RowMoves(a, a', mine, now)
    ensures OrderOk(b, a')
  {
    EvolvesTransitive(b.row, a, a');
  }

  lemma HookDomain(db: Db, p: Payload, h: Hook, c: HookChoice)
    ensures forall id :: id in HookDb(db, p, h, c).orders <==> id in db.orders
  {
    if h.pc.Complete? && CompleteTx(db, h.pc.completion).Ok? {
      CommitEffect(db, h.pc.completion);
    }
  }

  /** The domain of the tables grows only by an insert. */
  lemma DomainKept(s: State, a: Action)
    requires Enabled(s, a)
    requires a.CartStep? ==> !Inserts(s, a.t, a.cartChoice)
    ensures Step(s, a).born == s.born
    ensures forall id :: id in Step(s, a).db.orders <==> id in s.db.orders
  {
    match a {
      case HookStep(t, c) =>
        HookStepShape(s, t, c);
        HookDomain(s.db, s.payloads[s.hooks[t].event], s.hooks[t], c);
      case CartStep(t, c) =>
        CartStepShape(s, t, c);
        CartDomain(s.db, s.carts[t], c);
      case _ =>
    }
  }

  lemma CartDomain(db: Db, k: Cart, c: CartChoice)
    requires k.pc.InsertOrder? && c.Proceeds? ==>
               CreateOrderWithItems(db, k.pc.draft.id, RowFor(k, k.pc.draft, db.now)).Err?
    requires CartEnabled(db, k, c)
    ensures forall id :: id in CartDb(db, k, c).orders <==> id in db.orders
  {
  }

  lemma OrdersKept(s: State, a: Action)
    requires Inv(s) && Enabled(s, a)
    requires a.CartStep? ==> !Inserts(s, a.t, a.cartChoice)
    ensures OrdersOk(Step(s, a))
  {
    var s' := Step(s, a);
    StepMoves(s, a);
    DomainKept(s, a);
    forall id | id in s'.db.orders
      ensures OrderOk(s'.born[id], s'.db.orders[id])
    {
      OrderKept(s.born[id], s.db.orders[id], s'.db.orders[id], Actor(a) == Some(s.born[id].creator), s.db.now);
    }
  }

  lemma FreshRowOk(k: Cart, d: Draft, now: Time, t: Tid)
    requires d.total > 0 && k.hash != "" && (k.request.mode == HOSTED || k.request.mode == EMBEDDED)
    ensures OrderOk(Birth(RowFor(k, d, now), t), RowFor(k, d, now))
  {
    EvolvesReflexive(RowFor(k, d, now));
  }

  lemma OrdersKeptByInsert(s: State, s': State, t: Tid, c: CartChoice)
    requires OrdersOk(s) && t in s.carts && Inserts(s, t, c) && CartOk(s, t, s.carts[t])
    requires s'.db.orders == CartDb(s.db, s.carts[t], c).orders && s'.born == BornAfter(s, t, c)
    ensures OrdersOk(s')
  {
    var k, d := s.carts[t], s.carts[t].pc.draft;
    InsertEffect(s.db, d.id, RowFor(k, d, s.db.now));
    FreshRowOk(k, d, s.db.now, t);
    BirthsGrow(s, t, c);
    forall id | id in s'.db.orders
      ensures id in s'.born && OrderOk(s'.born[id], s'.db.orders[id])
    {
    }
  }

  // ---- Uniqueness ------------------------------------------------------------------

  /** Keys are only ever released, so they stay unique. */
  lemma KeysKept(s: State, s': State, actor: Option<Tid>)
    requires KeysUnique(s.db.orders) && OrdersMove(s, s', actor)
    requires forall id :: id in s'.db.orders ==> id in s.db.orders
    ensures KeysUnique(s'.db.orders)
  {
    forall a, b | a in s'.db.orders && b in s'.db.orders && s'.db.orders[a].key.Some?
        && s'.db.orders[a].key == s'.db.orders[b].key
      ensures a == b
    {
      assert s.db.orders[a].key == s'.db.orders[a].key && s.db.orders[b].key == s'.db.orders[b].key;
    }
  }

  lemma KeysKeptByInsert(orders: map<OrderId, Order>, id: OrderId, row: Order)
    requires KeysUnique(orders) && id !in orders
    requires forall other :: other in orders ==> row.key.Some? ==> orders[other].key != row.key
    ensures KeysUnique(orders[id := row])
  {
  }

  lemma SessionsKept(s: State, s': State)
    requires SessionsUnique(s.db.orders)
    requires forall id :: id in s'.db.orders ==>
               id in s.db.orders && s'.db.orders[id].sessionId == s.db.orders[id].sessionId
    ensures SessionsUnique(s'.db.orders)
  {
  }

  lemma SessionsKeptByInsert(orders: map<OrderId, Order>, id: OrderId, row: Order)
    requires SessionsUnique(orders) && id !in orders && row.sessionId == None
    ensures SessionsUnique(orders[id := row])
  {
  }

  lemma SessionsKeptByPersist(orders: map<OrderId, Order>, id: OrderId, row: Order, sessionId: string)
    requires SessionsUnique(orders) && id in orders && row.sessionId == Some(sessionId)
    requires !SessionTaken(orders, id, sessionId)
    ensures SessionsUnique(orders[id := row])
  {
  }

  lemma UpdateSessionsStay(orders: map<OrderId, Order>, c: Completion)
    requires UpdateOrderFor(orders, c).Ok?
    ensures forall id :: id in UpdateOrderFor(orders, c).value ==>
              id in orders && UpdateOrderFor(orders, c).value[id].sessionId == orders[id].sessionId
  {
  }

  lemma HookSessionsStay(db: Db, p: Payload, h: Hook, c: HookChoice)
    ensures forall id :: id in HookDb(db, p, h, c).orders ==>
              id in db.orders && HookDb(db, p, h, c).orders[id].sessionId == db.orders[id].sessionId
  {
    if h.pc.Complete? && CompleteTx(db, h.pc.completion).Ok? {
      UpdateSessionsStay(db.orders, h.pc.completion);
    }
  }

  /** Only a checkout storing its session changes a session column. */
  lemma SessionsStay(s: State, a: Action)
    requires Enabled(s, a)
    requires a.CartStep? ==> !s.carts[a.t].pc.Persist? && !s.carts[a.t].pc.InsertOrder?
    ensures forall id :: id in Step(s, a).db.orders ==>
              id in s.db.orders && Step(s, a).db.orders[id].sessionId == s.db.orders[id].sessionId
  {
    match a {
      case HookStep(t, c) => HookSessionsStay(s.db, s.payloads[s.hooks[t].event], s.hooks[t], c);
      case CartStep(t, c) => CartSessionsStay(s.db, s.carts[t], c);
      case _ =>
    }
  }

  lemma CartSessionsStay(db: Db, k: Cart, c: CartChoice)
    requires !k.pc.Persist? && !k.pc.InsertOrder?
    ensures forall id :: id in CartDb(db, k, c).orders ==>
              id in db.orders && CartDb(db, k, c).orders[id].sessionId == db.orders[id].sessionId
  {
  }

  lemma UniqueKept(s: State, a: Action)
    requires Inv(s) && Enabled(s, a)
    ensures KeysUnique(Step(s, a).db.orders) && SessionsUnique(Step(s, a).db.orders)
  {
    var s' := Step(s, a);
    if a.CartStep? && s.carts[a.t].pc.InsertOrder? {
      UniqueKeptByInsertStep(s, s', a.t, a.cartChoice);
    } else {
      StepMoves(s, a);
      DomainKept(s, a);
      KeysKept(s, s', Actor(a));
      if a.CartStep? && s.carts[a.t].pc.Persist? {
        UniqueKeptByPersistStep(s, s', a.t, a.cartChoice);
      } else {
        SessionsStay(s, a);
        SessionsKept(s, s');
      }
    }
  }

  lemma UniqueKeptByInsertStep(s: State, s': State, t: Tid, c: CartChoice)
    requires KeysUnique(s.db.orders) && SessionsUnique(s.db.orders)
    requires t in s.carts && s.carts[t].pc.InsertOrder? && s'.db.orders == CartDb(s.db, s.carts[t], c).orders
    ensures KeysUnique(s'.db.orders) && SessionsUnique(s'.db.orders)
  {
    if s'.db.orders != s.db.orders {
      var k, d := s.carts[t], s.carts[t].pc.draft;
      var row := RowFor(k, d, s.db.now);
      InsertEffect(s.db, d.id, row);
      KeysKeptByInsert(s.db.orders, d.id, row);
      SessionsKeptByInsert(s.db.orders, d.id, row);
    }
  }

  lemma UniqueKeptByPersistStep(s: State, s': State, t: Tid, c: CartChoice)
    requires SessionsUnique(s.db.orders) && t in s.carts && s.carts[t].pc.Persist?
    requires s'.db.orders == CartDb(s.db, s.carts[t], c).orders
    ensures SessionsUnique(s'.db.orders)
  {
    if s'.db.orders != s.db.orders {
      var d, x := s.carts[t].pc.draft, s.carts[t].pc.session;
      SessionsKeptByPersist(s.db.orders, d.id, s'.db.orders[d.id], x.id);
    }
  }

  lemma PricedKept(s: State, a: Action)
    requires Inv(s) && Enabled(s, a)
    ensures AllPriced(Step(s, a))
  {
    if a.CartStep? && Inserts(s, a.t, a.cartChoice) {
      assert CartOk(s, a.t, s.carts[a.t]);
      BirthsGrow(s, a.t, a.cartChoice);
    } else {
      DomainKept(s, a);
    }
  }

  // ---- Events ----------------------------------------------------------------------

  lemma EffectStable(before: map<OrderId, Order>, after: map<OrderId, Order>, p: Payload, orderId: Option<OrderId>)
    requires EffectHolds(before, p, orderId)
    requires forall id :: id in before ==> id in after && Evolves(before[id], after[id])
    ensures EffectHolds(after, p, orderId)
  {
    if Target(p).Some? {
      ConcernsStable(before[orderId.value], after[orderId.value], p);
    }
  }

  /** After a commit the order is past what the event asked for. */
  lemma CommitPast(db: Db, e: EventId, p: Payload, c: Completion, at: Time)
    requires CompletionOk(db.orders, e, p, c, at) && CompleteTx(db, c).Ok?
    requires Target(p).Some?
    ensures c.orderId.Some? && c.orderId.value in CompleteTx(db, c).value.orders
    ensures Past(CompleteTx(db, c).value.orders[c.orderId.value].status, Target(p).value)
  {
    CompletionFacts(db.orders, e, p, c, at);
    CommitEffect(db, c);
  }

  lemma CommitEffectHolds(s: State, s': State, e: EventId, c: Completion, at: Time)
    requires OrdersOk(s) && EventsOk(s) && e in s.payloads && Handled(s.payloads[e])
    requires CompletionOk(s.db.orders, e, s.payloads[e], c, at) && CompleteTx(s.db, c) == Ok(s'.db)
    ensures e in s'.db.events && EffectHolds(s'.db.orders, s.payloads[e], s'.db.events[e].orderId)
  {
    var p := s.payloads[e];
    CommitMoves(s, s', e, c, at);
    CommitEffect(s.db, c);
    CompletionFacts(s.db.orders, e, p, c, at);
    if Target(p).Some? {
      CommitPast(s.db, e, p, c, at);
      var id := c.orderId.value;
      ConcernsStable(s.db.orders[id], s'.db.orders[id], p);
    }
  }

  lemma EventKept(s: State, s': State, actor: Option<Tid>, e: EventId)
    requires Moves(s, s', actor) && EventsOk(s) && e in s.db.events
    requires s.db.events[e].status != Processed && s'.db.events[e].status == Processed ==>
               EffectHolds(s'.db.orders, s.payloads[e], s'.db.events[e].orderId)
    ensures EventOk(s'.db.orders, s'.payloads[e], s'.db.events[e], s'.db.now)
  {
    if s.db.events[e].status == Processed {
      EffectStable(s.db.orders, s'.db.orders, s.payloads[e], s.db.events[e].orderId);
    }
  }

  lemma HookProcessed(db: Db, p: Payload, h: Hook, c: HookChoice, e: EventId)
    requires HookOk(db, p, h) && e in HookDb(db, p, h, c).events && HookDb(db, p, h, c).events[e].status == Processed
    ensures e in db.events
    ensures db.events[e].status != Processed ==>
              && h.event == e && h.pc.Complete? && db.events[e].status == InFlight
              && CompleteTx(db, h.pc.completion) == Ok(HookDb(db, p, h, c))
  {
    if h.pc.Complete? && CompleteTx(db, h.pc.completion).Ok? {
      CommitEffect(db, h.pc.completion);
      CompletionFacts(db.orders, h.event, p, h.pc.completion, h.pc.builtAt);
    }
  }

  /** An event row becomes processed only by a commit. */
  lemma ProcessedByCommit(s: State, a: Action, e: EventId)
    requires HooksOk(s) && Enabled(s, a) && e in Step(s, a).db.events
    requires Step(s, a).db.events[e].status == Processed
    ensures e in s.db.events
    ensures s.db.events[e].status != Processed ==>
              && a.HookStep? && s.hooks[a.t].event == e && s.hooks[a.t].pc.Complete?
              && CompleteTx(s.db, s.hooks[a.t].pc.completion) == Ok(Step(s, a).db)
              && s.db.events[e].status == InFlight
  {
    match a {
      case HookStep(t, c) =>
        HookKnown(s, t);
        HookStepShape(s, t, c);
        HookProcessed(s.db, s.payloads[s.hooks[t].event], s.hooks[t], c, e);
      case CartStep(t, c) =>
        CartStepShape(s, t, c);
      case _ =>
    }
  }

  lemma HookInserts(db: Db, p: Payload, h: Hook, c: HookChoice, e: EventId)
    requires HookOk(db, p, h) && e in HookDb(db, p, h, c).events && e !in db.events
    ensures HookDb(db, p, h, c).events[e] == EventRow(Received, None, db.now, None, None)
    ensures h.event == e && h.pc.Insert? && !c.fault
  {
    if h.pc.Complete? && CompleteTx(db, h.pc.completion).Ok? {
      CommitEffect(db, h.pc.completion);
    }
  }

  /** The only rows added are new deliveries. */
  lemma NewEventRows(s: State, a: Action, e: EventId)
    requires HooksOk(s) && Enabled(s, a) && e in Step(s, a).db.events && e !in s.db.events
    ensures e in s.payloads && Step(s, a).db.events[e] == EventRow(Received, None, s.db.now, None, None)
    ensures a.HookStep? && s.hooks[a.t].event == e && s.hooks[a.t].pc.Insert? && !a.hookChoice.fault
  {
    match a {
      case HookStep(t, c) =>
        HookKnown(s, t);
        HookStepShape(s, t, c);
        HookInserts(s.db, s.payloads[s.hooks[t].event], s.hooks[t], c, e);
      case CartStep(t, c) =>
        CartStepShape(s, t, c);
      case _ =>
    }
  }

  lemma EventsKept(s: State, a: Action)
    requires Inv(s) && Enabled(s, a)
    ensures EventsOk(Step(s, a))
  {
    var s' := Step(s, a);
    StepMoves(s, a);
    forall e | e in s'.db.events
      ensures e in s'.payloads && EventOk(s'.db.orders, s'.payloads[e], s'.db.events[e], s'.db.now)
    {
      if e in s.db.events {
        if s'.db.events[e].status == Processed && s.db.events[e].status != Processed {
          ProcessedByCommit(s, a, e);
          var h := s.hooks[a.t];
          assert HookOk(s.db, s.payloads[e], h);
          CommitEffectHolds(s, s', e, h.pc.completion, h.pc.builtAt);
        }
        EventKept(s, s', Actor(a), e);
      } else {
        NewEventRows(s, a, e);
      }
    }
  }
}
