/** The global invariant of the protocol: what links table rows, running handlers, running
    checkouts and time in every reachable state. */
module Invariants {
  import opened Domain
  import opened Pricing
  import opened Canonical
  import opened Validation
  import opened Tables
  import opened WebhookProgram
  import opened CheckoutProgram
  import opened Protocol
  import opened Rows

  // ---- Orders ----------------------------------------------------------------------

  /** A row against its state at insertion. A row without a session has never been
      touched by a webhook, and the payment stamp marks exactly the settled rows. */
  ghost predicate OrderOk(b: Birth, row: Order) {
    && b.row.status == Pending && b.row.sessionId == None && b.row.total > 0
    && ExtractRequestHash(b.row.metadata) != ""
    && (b.row.mode == HOSTED || b.row.mode == EMBEDDED)
    && Evolves(b.row, row)
    && row.sessionId != Some("")
    && (row.sessionId == None ==> row.status == Pending || row.status == Canceled)
    && (row.paidAt.Some? <==> Settled(row.status))
  }

  ghost predicate OrdersOk(s: State) {
    && (forall id :: id in s.db.orders <==> id in s.born)
    && (forall id :: id in s.db.orders ==> OrderOk(s.born[id], s.db.orders[id]))
  }

  ghost predicate KeysUnique(orders: map<OrderId, Order>) {
    forall a, b :: a in orders && b in orders && orders[a].key.Some? && orders[a].key == orders[b].key ==> a == b
  }

  ghost predicate SessionsUnique(orders: map<OrderId, Order>) {
    forall a, b :: a in orders && b in orders && orders[a].sessionId.Some? && orders[a].sessionId == orders[b].sessionId
      ==> a == b
  }

  /** The stored total is the wrapped sum of the stored lines. */
  ghost predicate PricedOk(total: int, lines: seq<Line>) {
    && total == WrapTotal(lines)
    && (forall i :: 0 <= i < |lines| ==> lines[i].lineTotal == Wrap32(lines[i].unit * lines[i].quantity))
  }

  ghost predicate AllPriced(s: State) {
    forall id :: id in s.born ==> PricedOk(s.born[id].row.total, s.born[id].row.lines)
  }

  // ---- Events ----------------------------------------------------------------------

  /** Is an order past what an event asked for? */
  predicate Past(current: OrderStatus, target: OrderStatus) {
    match target
    case Processing => current in {Processing, Paid, Failed, Refunded}
    case Paid => current in {Paid, Refunded}
    case Failed => current in {Failed, Paid, Refunded}
    case Expired => current in {Expired, Paid, Refunded}
    case Refunded => current == Refunded
    case _ => false
  }

  /** The row is the one the event is about, by a column that can no longer change. */
  predicate Concerns(row: Order, p: Payload) {
    match LookupFor(p)
    case NoLookup => false
    case BySession(id) => row.sessionId == Some(id)
    case ByIntent(i) => row.paymentIntent == Some(i) && Settled(row.status)
  }

  /** A processed event that asks for a status names an order that is past it. */
  ghost predicate EffectHolds(orders: map<OrderId, Order>, p: Payload, orderId: Option<OrderId>) {
    Target(p).Some? ==>
      && orderId.Some? && orderId.value in orders
      && Past(orders[orderId.value].status, Target(p).value)
      && Concerns(orders[orderId.value], p)
  }

  ghost predicate EventOk(orders: map<OrderId, Order>, p: Payload, row: EventRow, now: Time) {
    && (!Handled(p) ==> row.status == Received || row.status == Ignored)
    && (Handled(p) ==> row.status != Ignored)
    && (row.status == InFlight ==> row.startedAt.Some?)
    && (row.startedAt.Some? ==> row.startedAt.value <= now)
    && (row.status == Processed ==> EffectHolds(orders, p, row.orderId))
  }

  ghost predicate EventsOk(s: State) {
    forall e :: e in s.db.events ==>
      e in s.payloads && EventOk(s.db.orders, s.payloads[e], s.db.events[e], s.db.now)
  }

  /** The amounts an event carries agree with the row, where the handler checks them. */
  predicate Agrees(row: Order, p: Payload) {
    match p
    case SessionCompleted(x) => AmountOk(row, x.amount, x.currency)
    case AsyncSucceeded(x) => AmountOk(row, x.amount, x.currency)
    case ChargeRefunded(x) => AmountOk(row, x.amount, x.currency)
    case _ => true
  }

  /** Event `e` accounts for order `id` having reached `target`. */
  ghost predicate Cause(s: State, e: EventId, id: OrderId, target: OrderStatus) {
    && e in s.db.events && e in s.payloads && id in s.db.orders
    && s.db.events[e].status == Processed && s.db.events[e].orderId == Some(id)
    && Target(s.payloads[e]) == Some(target)
    && Concerns(s.db.orders[id], s.payloads[e])
    && Agrees(s.db.orders[id], s.payloads[e])
  }

  ghost predicate HasCause(s: State, id: OrderId, target: OrderStatus) {
    exists e :: Cause(s, e, id, target)
  }

  ghost predicate CauseOk(s: State, id: OrderId, status: OrderStatus) {
    && (status in {Processing, Failed, Expired} ==> HasCause(s, id, status))
    && (Settled(status) ==> HasCause(s, id, Paid))
    && (status == Refunded ==> HasCause(s, id, Refunded))
  }

  ghost predicate CausesOk(s: State) {
    forall id :: id in s.db.orders ==> CauseOk(s, id, s.db.orders[id].status)
  }

  // ---- Handlers ----------------------------------------------------------------------

  ghost predicate OpenRow(events: map<EventId, EventRow>, e: EventId) {
    e in events && events[e].status != Received && events[e].status != Ignored
  }

  /** A stale completion is as good as one rebuilt from the row as it is now; a refund is
      also good once the order is refunded. */
  ghost predicate Rebuilds(e: EventId, p: Payload, id: OrderId, row: Order, c: Completion, at: Time) {
    || Build(e, p, Some(Found(id, row)), at) == Ok(c)
    || (c.refundOnly && row.status == Refunded && Build(e, p, Some(Found(id, row.(status := Paid))), at) == Ok(c))
  }

  ghost predicate CompletionOk(orders: map<OrderId, Order>, e: EventId, p: Payload, c: Completion, at: Time) {
    if c.orderId.None? then LookupFor(p).NoLookup? && Build(e, p, None, at) == Ok(c)
    else
      && c.orderId.value in orders
      && Concerns(orders[c.orderId.value], p)
      && Rebuilds(e, p, c.orderId.value, orders[c.orderId.value], c, at)
  }

  predicate PastClaim(h: Hook) {
    h.pc.BuildCompletion? || h.pc.Complete? || h.pc.ReportFailure?
  }

  ghost predicate HookOk(db: Db, p: Payload, h: Hook) {
    && h.started <= db.now
    && (h.pc.TestStale? ==> Handled(p) && OpenRow(db.events, h.event) && h.pc.seen.status == InFlight)
    && (h.pc.RaceRead? ==> h.event in db.events)
    && (h.pc.Ignore? ==> !Handled(p) && h.event in db.events)
    && (h.pc.TryClaim? ==> Handled(p) && h.event in db.events)
    && (h.pc.Unclaimed? ==> Handled(p) && OpenRow(db.events, h.event))
    && (PastClaim(h) ==> Handled(p) && OpenRow(db.events, h.event)
                         && h.claimedAt.Some? && h.started <= h.claimedAt.value <= db.now)
    && (h.pc.Complete? ==> CompletionOk(db.orders, h.event, p, h.pc.completion, h.pc.builtAt))
    && (h.pc == Done(Acknowledged) ==>
          h.event in db.events && (Handled(p) ==> db.events[h.event].status == Processed))
  }

  ghost predicate HooksOk(s: State) {
    forall t :: t in s.hooks ==>
      s.hooks[t].event in s.payloads && HookOk(s.db, s.payloads[s.hooks[t].event], s.hooks[t])
  }

  // ---- Checkouts -----------------------------------------------------------------------

  /** The checkout inserted this order, which still has no session, and which only the
      sweep can have canceled. */
  ghost predicate Owns(s: State, t: Tid, k: Cart, d: Draft) {
    && d.id in s.db.orders && d.id in s.born
    && s.born[d.id].creator == t
    && s.born[d.id].row == RowFor(k, d, s.born[d.id].row.createdAt)
    && k.mine == Some(d.id)
    && k.started <= s.born[d.id].row.createdAt
    && s.db.orders[d.id].sessionId == None
    && (s.db.orders[d.id].status == Canceled ==> s.born[d.id].row.createdAt + STALE_ORDER < s.db.now)
  }

  /** A reply shows what the row stores. */
  predicate Shows(r: CheckoutResult, row: Order) {
    && r.number == row.number
    && r.sessionId != "" && row.sessionId == Some(r.sessionId)
    && r.url == (if row.mode == HOSTED then row.url.GetOr("") else "")
    && r.clientSecret == (if row.mode == HOSTED then "" else row.clientSecret.GetOr(""))
  }

  ghost predicate AnswersFor(s: State, k: Cart, id: OrderId) {
    && id in s.db.orders && id in s.born
    && s.born[id].row.key == NullIfEmpty(k.key)
    && ExtractRequestHash(s.born[id].row.metadata) == k.hash
  }

  /** The order of a first reply is canceled only if the sweep got to it before its
      session was stored, a full sweep age after it was inserted. */
  ghost predicate CreatedOk(s: State, k: Cart, r: CheckoutResult, at: Time) {
    && AnswersFor(s, k, r.orderId)
    && Shows(r, s.db.orders[r.orderId])
    && k.mine == Some(r.orderId)
    && k.started <= s.born[r.orderId].row.createdAt
    && (s.db.orders[r.orderId].status == Canceled ==> s.born[r.orderId].row.createdAt + STALE_ORDER < at)
  }

  ghost predicate ReplayedOk(s: State, k: Cart, r: CheckoutResult) {
    && AnswersFor(s, k, r.orderId)
    && Shows(r, s.db.orders[r.orderId])
    && s.db.orders[r.orderId].status != Canceled
  }

  /** The row a replay was decided on is still the row of a live order. */
  ghost predicate FoundLive(s: State, k: Cart, f: Found) {
    && AnswersFor(s, k, f.id)
    && Evolves(f.row, s.db.orders[f.id])
    && f.row.sessionId.GetOr("") != ""
    && f.row.status != Canceled
  }

  ghost predicate CartOk(s: State, t: Tid, k: Cart) {
    && k.started <= s.db.now
    && k.hash != ""
    && (k.request.mode == HOSTED || k.request.mode == EMBEDDED)
    && (k.pc.Resolve? ==> k.key != "")
    && match k.pc
       case RenewToken(f) => FoundLive(s, k, f)
       case InsertOrder(d) => PricedOk(d.total, d.lines)
       case CreateSession(d) => Owns(s, t, k, d)
       case Persist(d, _, x) => Owns(s, t, k, d) && x.id != ""
       case ExpireSession(d, _) => Owns(s, t, k, d)
       case Cancel(d, _) => Owns(s, t, k, d)
       case Finished(Created(r), at) => CreatedOk(s, k, r, at)
       case Finished(Replayed(r), _) => ReplayedOk(s, k, r)
       case _ => true
  }

  ghost predicate CartsOk(s: State) {
    forall t :: t in s.carts ==> CartOk(s, t, s.carts[t])
  }

  /** A checkout's hash is that of its own request; kept apart from the other invariants. */
  ghost predicate HashOk(k: Cart) {
    k.hash == CanonicalText(k.request)
  }

  ghost predicate HashesOk(s: State) {
    forall t :: t in s.carts ==> HashOk(s.carts[t])
  }

  // ---- All together ----------------------------------------------------------------------

  ghost predicate Inv(s: State) {
    && OrdersOk(s) && KeysUnique(s.db.orders) && SessionsUnique(s.db.orders) && AllPriced(s)
    && EventsOk(s) && CausesOk(s) && HooksOk(s) && CartsOk(s)
  }

  /** What one action may do to the tables. `actor` is the checkout taking the step. */
  ghost predicate OrdersMove(s: State, s': State, actor: Option<Tid>) {
    forall id :: id in s.db.orders ==>
      id in s'.db.orders && id in s.born &&
      RowMoves(s.db.orders[id], s'.db.orders[id], actor == Some(s.born[id].creator), s.db.now)
  }

  ghost predicate EventsMove(s: State, s': State) {
    forall e :: e in s.db.events ==>
      e in s'.db.events && e in s.payloads &&
      EventMoves(Handled(s.payloads[e]), s.db.events[e], s'.db.events[e], s.db.now)
  }

  ghost predicate BirthsKept(s: State, s': State) {
    forall id :: id in s.born ==> id in s'.born && s'.born[id] == s.born[id]
  }

  ghost predicate Moves(s: State, s': State, actor: Option<Tid>) {
    && s'.payloads == s.payloads && s.db.now <= s'.db.now
    && OrdersMove(s, s', actor) && EventsMove(s, s') && BirthsKept(s, s')
  }

  lemma InitInv(s: State)
    requires Init(s)
    ensures Inv(s)
  {
  }
}
