/** The two tables the protocol lives on, and the effect of each SQL statement or
    transaction on them. Every function here is one atomic step of the database. */
module Tables {
  import opened Domain
  import opened Pricing

  type OrderId = string
  type EventId = string

  const HASH_KEY := "_request_body_hash"
  const REASON_KEY := "cancel_reason"

  datatype Order = Order(
    number: string, key: Option<string>, status: OrderStatus, total: int, currency: string,
    sessionId: Option<string>, paymentIntent: Option<string>,
    url: Option<string>, clientSecret: Option<string>, mode: string,
    metadata: map<string, string>, paidAt: Option<Time>, createdAt: Time,
    tokenHash: Option<string>, lines: seq<Line>)

  datatype EventRow = EventRow(
    status: EventStatus, startedAt: Option<Time>, createdAt: Time,
    processedAt: Option<Time>, orderId: Option<OrderId>)

  datatype Db = Db(orders: map<OrderId, Order>, events: map<EventId, EventRow>, now: Time)

  /** What a handler hands to the completing transaction. */
  datatype Completion = Completion(
    event: EventId, orderId: Option<OrderId>, newStatus: Option<OrderStatus>,
    paymentIntent: Option<string>, paidAt: Option<Time>, allowedFrom: set<OrderStatus>,
    refundOnly: bool)

  datatype TxError = OrderMissing | NoEffect(current: OrderStatus) | NotInProcessing

  datatype InsertError = CheckViolation | UniqueViolation

  // ---- Columns -------------------------------------------------------------------

  function NullIfEmpty(value: string): Option<string> {
    if value == "" then None else Some(value)
  }

  function Coalesce<T>(first: Option<T>, second: Option<T>): Option<T> {
    if first.Some? then first else second
  }

  function MergeRequestBodyHash(metadata: map<string, string>, hash: string): map<string, string> {
    metadata[HASH_KEY := hash]
  }

  function ExtractRequestHash(metadata: map<string, string>): string {
    if HASH_KEY in metadata then metadata[HASH_KEY] else ""
  }

  // ---- Lookups ---------------------------------------------------------------------

  /** `pick` is a row a lookup by idempotency key may return, or None when no row matches. */
  predicate FindsByKey(orders: map<OrderId, Order>, key: string, pick: Option<OrderId>) {
    match pick
    case Some(id) => id in orders && orders[id].key == Some(key)
    case None => forall id :: id in orders ==> orders[id].key != Some(key)
  }

  predicate FindsBySession(orders: map<OrderId, Order>, sessionId: string, pick: Option<OrderId>) {
    match pick
    case Some(id) => id in orders && orders[id].sessionId == Some(sessionId)
    case None => forall id :: id in orders ==> orders[id].sessionId != Some(sessionId)
  }

  /** Payment intents are not unique: any matching row may be returned. */
  predicate FindsByIntent(orders: map<OrderId, Order>, intent: string, pick: Option<OrderId>) {
    match pick
    case Some(id) => id in orders && orders[id].paymentIntent == Some(intent)
    case None => forall id :: id in orders ==> orders[id].paymentIntent != Some(intent)
  }

  // ---- Webhook events ---------------------------------------------------------------

  function InsertEvent(db: Db, e: EventId): Db {
    db.(events := db.events[e := EventRow(Received, None, db.now, None, None)])
  }

  predicate Claimable(row: EventRow, now: Time) {
    || row.status == Received
    || row.status == Rejected
    || (row.status == InFlight && row.startedAt.GetOr(row.createdAt) + STALE_WEBHOOK < now)
  }

  predicate CanClaim(db: Db, e: EventId) {
    e in db.events && Claimable(db.events[e], db.now)
  }

  function Claim(db: Db, e: EventId): Db {
    if CanClaim(db, e)
    then db.(events := db.events[e := db.events[e].(status := InFlight, startedAt := Some(db.now))])
    else db
  }

  /** A failure report lands only on an event being processed. */
  function FailEvent(db: Db, e: EventId): Db {
    if e in db.events && db.events[e].status == InFlight
    then db.(events := db.events[e := db.events[e].(status := Rejected)])
    else db
  }

  function IgnoreEvent(db: Db, e: EventId): Db {
    if e in db.events
    then db.(events := db.events[e := db.events[e].(status := Ignored, processedAt := Some(db.now))])
    else db
  }

  /** The server-side staleness test; a row without a start time is never stale. */
  predicate IsStaleWebhookProcessing(row: EventRow, now: Time) {
    row.status == InFlight && row.startedAt.Some? && now >= row.startedAt.value + STALE_WEBHOOK
  }

  // ---- The completing transaction -------------------------------------------------------

  /** An UPDATE that matched no row is accepted only if the order is already past the target. */
  function EnsureEffect(orders: map<OrderId, Order>, id: OrderId, target: OrderStatus, refundOnly: bool)
    : Result<map<OrderId, Order>, TxError>
  {
    if id !in orders then Err(OrderMissing)
    else if WebhookOrderEffectSatisfied(orders[id].status, target, refundOnly) then Ok(orders)
    else Err(NoEffect(orders[id].status))
  }

  predicate Refundable(orders: map<OrderId, Order>, id: OrderId) {
    id in orders && orders[id].status == Paid
  }

  predicate Advanceable(orders: map<OrderId, Order>, c: Completion, id: OrderId) {
    id in orders && orders[id].status in c.allowedFrom && orders[id].status != Paid && orders[id].status != Refunded
  }

  function Advance(row: Order, c: Completion, target: OrderStatus): Order {
    row.(status := target,
         paymentIntent := Coalesce(c.paymentIntent, row.paymentIntent),
         paidAt := Coalesce(c.paidAt, row.paidAt))
  }

  function UpdateOrderFor(orders: map<OrderId, Order>, c: Completion): Result<map<OrderId, Order>, TxError> {
    if c.refundOnly && c.orderId.Some? then
      var id := c.orderId.value;
      if Refundable(orders, id) then Ok(orders[id := orders[id].(status := Refunded)])
      else EnsureEffect(orders, id, Refunded, true)
    else if c.newStatus.Some? && c.orderId.Some? then
      var id := c.orderId.value;
      if Advanceable(orders, c, id) then Ok(orders[id := Advance(orders[id], c, c.newStatus.value)])
      else EnsureEffect(orders, id, c.newStatus.value, false)
    else Ok(orders)
  }

  function MarkProcessed(db: Db, c: Completion): map<EventId, EventRow>
    requires c.event in db.events
  {
    var row := db.events[c.event];
    db.events[c.event := row.(status := Processed, processedAt := Some(db.now),
        orderId := Coalesce(c.orderId, row.orderId))]
  }

  /** Order update and event update commit together or not at all. */
  function CompleteTx(db: Db, c: Completion): Result<Db, TxError> {
    match UpdateOrderFor(db.orders, c)
    case Err(e) => Err(e)
    case Ok(orders) =>
      if c.event !in db.events || db.events[c.event].status != InFlight then Err(NotInProcessing)
      else Ok(Db(orders, MarkProcessed(db, c), db.now))
  }

  // ---- Orders ---------------------------------------------------------------------------

  /** Everything an order is created from. */
  datatype Draft = Draft(
    id: OrderId, number: string, token: string, total: int, currency: string, lines: seq<Line>)

  function NewOrder(d: Draft, key: string, mode: string, metadata: map<string, string>, hash: string,
      now: Time): Order {
    Order(d.number, NullIfEmpty(key), Pending, d.total, d.currency, None, None, None, None, mode,
          MergeRequestBodyHash(metadata, hash), None, now, NullIfEmpty(d.token), d.lines)
  }

  predicate LinesPassChecks(lines: seq<Line>) {
    forall i :: 0 <= i < |lines| ==> lines[i].quantity > 0 && lines[i].unit > 0 && lines[i].lineTotal > 0
  }

  predicate Collides(orders: map<OrderId, Order>, id: OrderId, row: Order) {
    || id in orders
    || exists other :: other in orders &&
         (orders[other].number == row.number || (row.key.Some? && orders[other].key == row.key))
  }

  /** Insert of an order with its line items; any constraint violation undoes it all. */
  function CreateOrderWithItems(db: Db, id: OrderId, row: Order): Result<Db, InsertError> {
    if row.total <= 0 then Err(CheckViolation)
    else if Collides(db.orders, id, row) then Err(UniqueViolation)
    else if !LinesPassChecks(row.lines) then Err(CheckViolation)
    else Ok(db.(orders := db.orders[id := row]))
  }

  predicate SessionTaken(orders: map<OrderId, Order>, id: OrderId, sessionId: string) {
    exists other :: other in orders && other != id && orders[other].sessionId == Some(sessionId)
  }

  /** Has no status guard: it writes whatever row has the id. */
  function UpdateOrderSession(db: Db, id: OrderId, sessionId: string, url: string, clientSecret: string): Db {
    if id in db.orders
    then db.(orders := db.orders[id := db.orders[id].(
               sessionId := Some(sessionId), url := NullIfEmpty(url), clientSecret := NullIfEmpty(clientSecret))])
    else db
  }

  function UpdateOrderToken(db: Db, id: OrderId, token: string): Db {
    if id in db.orders then db.(orders := db.orders[id := db.orders[id].(tokenHash := Some(token))]) else db
  }

  /** Releases a key only from a canceled order. */
  function ClearKey(db: Db, id: OrderId): Db {
    if id in db.orders && db.orders[id].status == Canceled
    then db.(orders := db.orders[id := db.orders[id].(key := None)])
    else db
  }

  /** Has no status guard: it cancels whatever row has the id. */
  function CancelOrder(db: Db, id: OrderId, reason: string): Db {
    if id in db.orders
    then db.(orders := db.orders[id := db.orders[id].(
               status := Canceled, key := None, metadata := db.orders[id].metadata[REASON_KEY := reason])])
    else db
  }

  predicate StalePending(row: Order, now: Time) {
    row.status == Pending && row.sessionId == None && row.createdAt + STALE_ORDER < now
  }

  function Swept(row: Order, now: Time): Order {
    if StalePending(row, now)
    then row.(status := Canceled, metadata := row.metadata[REASON_KEY := "stale_checkout"])
    else row
  }

  function CancelStalePendingOrders(db: Db): Db {
    db.(orders := map id | id in db.orders :: Swept(db.orders[id], db.now))
  }
}
