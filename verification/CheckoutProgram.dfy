/** The checkout saga as a program: resolve the idempotency key, price, insert the order
    before calling Stripe, persist the session with three tries, compensate on failure. */
module CheckoutProgram {
  import opened Domain
  import opened Pricing
  import opened Canonical
  import opened Validation
  import opened Tables
  import opened WebhookProgram

  datatype StripeSession = StripeSession(id: string, url: string, clientSecret: string)

  datatype CheckoutResult = CheckoutResult(
    orderId: OrderId, number: string, sessionId: string, url: string, clientSecret: string, token: string)

  datatype CheckoutError =
    | StoreError
    | IdempotencyConflict
    | CheckoutInProgress
    | PricingFailed(reason: PricingError)
    | InsertFailed(cause: InsertError)
    | StripeFailed
    | PersistFailed

  datatype Reply = Created(result: CheckoutResult) | Replayed(result: CheckoutResult) | Refused(error: CheckoutError)

  /** Calls with effects outside the handler, in the order they were made. */
  datatype Call =
    | OrderInserted
    | StripeCreate(session: Option<StripeSession>)
    | PersistTry(sessionId: string, ok: bool)
    | ExpireTry(sessionId: string)
    | CancelTry(ok: bool)

  datatype CartPc =
    | Resolve(second: bool)
    | Clear(id: OrderId, second: bool)
    | RenewToken(found: Found)
    | Price
    | InsertOrder(draft: Draft)
    | CreateSession(draft: Draft)
    | Persist(draft: Draft, attempt: nat, session: StripeSession)
    | ExpireSession(draft: Draft, session: StripeSession)
    | Cancel(draft: Draft, reason: string)
    | Finished(reply: Reply, at: Time)
    | Died

  /** One running checkout. `cut` says that the context of its request is over, because the
      client has gone or the time limit has passed: from then on every store call fails.
      `mine` and `calls` only record which order it inserted and what it has called so far. */
  datatype Cart = Cart(
    request: Request, key: string, hash: string, started: Time, pc: CartPc, cut: bool,
    mine: Option<OrderId>, calls: seq<Call>)

  /** What the environment decides about the next step. */
  datatype CartChoice =
    | Fault
    | Proceeds
    | ContextDone
    | KeyLookup(pick: Option<OrderId>)
    | NewToken(token: string)
    | Catalog(products: map<string, Product>, id: OrderId, number: string, token: string)
    | StripeReply(session: StripeSession)

  const PERSIST_ATTEMPTS := 3
  const REASON_STRIPE := "stripe_api_error"
  const REASON_PERSIST := "persist_failed"

  predicate CartRunning(k: Cart) {
    !k.pc.Finished? && !k.pc.Died?
  }

  predicate ValidCatalog(products: map<string, Product>) {
    forall p :: p in products ==> ValidProduct(products[p])
  }

  /** Which environment decisions make sense at which step. Calls to the store run on the
      request's context and fail once it is over; calls to Stripe do not. An attempt to
      store the session is followed by a pause that ends at once when the context is over.
      Stripe never returns an empty session id, and tokens are never empty. */
  predicate CartEnabled(db: Db, k: Cart, c: CartChoice) {
    match k.pc
    case Resolve(_) => c.Fault? || (!k.cut && c.KeyLookup? && FindsByKey(db.orders, k.key, c.pick))
    case Clear(_, _) => c.Fault? || (!k.cut && c.Proceeds?)
    case RenewToken(_) => c.Fault? || (!k.cut && c.NewToken? && c.token != "")
    case Price => c.Fault? || (!k.cut && c.Catalog? && ValidCatalog(c.products) && c.token != "")
    case InsertOrder(_) => c.Fault? || (!k.cut && c.Proceeds?)
    case CreateSession(_) => c.Fault? || (c.StripeReply? && c.session.id != "")
    case Persist(_, _, _) => c.ContextDone? || (!k.cut && (c.Fault? || c.Proceeds?))
    case ExpireSession(_, _) => c.Fault? || c.Proceeds?
    case Cancel(_, _) => c.Fault? || (!k.cut && c.Proceeds?)
    case _ => false
  }

  function Refuse(k: Cart, e: CheckoutError, now: Time): Cart {
    k.(pc := Finished(Refused(e), now))
  }

  /** The reply to a repeated request, read off the stored row. */
  function ReplayCheckout(id: OrderId, row: Order, token: string): CheckoutResult {
    CheckoutResult(id, row.number, row.sessionId.GetOr(""),
                   if row.mode == HOSTED then row.url.GetOr("") else "",
                   if row.mode == EMBEDDED then row.clientSecret.GetOr("") else "",
                   token)
  }

  /** The reply to the request that created the order. */
  function BuildCheckoutResult(d: Draft, mode: string, s: StripeSession): CheckoutResult {
    CheckoutResult(d.id, d.number, s.id,
                   if mode == HOSTED then s.url else "",
                   if mode == HOSTED then "" else s.clientSecret,
                   d.token)
  }

  function AfterResolve(db: Db, k: Cart, pick: Option<OrderId>, second: bool): Cart {
    match FoundIn(db.orders, pick)
    case None =>
      if second then Refuse(k, InsertFailed(UniqueViolation), db.now) else k.(pc := Price)
    case Some(found) =>
      var stored := ExtractRequestHash(found.row.metadata);
      if found.row.status == Canceled then k.(pc := Clear(found.id, second))
      else if stored != "" && stored != k.hash then Refuse(k, IdempotencyConflict, db.now)
      else if found.row.sessionId.GetOr("") == "" then Refuse(k, CheckoutInProgress, db.now)
      else k.(pc := RenewToken(found))
  }

  function AfterPrice(k: Cart, c: CartChoice, now: Time): Cart
    requires c.Catalog?
  {
    match PriceItems(k.request.items, c.products)
    case Err(e) => Refuse(k, PricingFailed(e), now)
    case Ok(p) => k.(pc := InsertOrder(Draft(c.id, c.number, c.token, p.total, p.currency, p.lines)))
  }

  function RowFor(k: Cart, d: Draft, now: Time): Order {
    NewOrder(d, k.key, k.request.mode, k.request.metadata, k.hash, now)
  }

  function AfterInsert(db: Db, k: Cart, d: Draft): Cart {
    match CreateOrderWithItems(db, d.id, RowFor(k, d, db.now))
    case Ok(_) => k.(pc := CreateSession(d), mine := Some(d.id), calls := k.calls + [OrderInserted])
    case Err(e) =>
      if e == UniqueViolation && k.key != "" then k.(pc := Resolve(true))
      else Refuse(k, InsertFailed(e), db.now)
  }

  predicate PersistWorks(db: Db, d: Draft, s: StripeSession, c: CartChoice) {
    c.Proceeds? && !SessionTaken(db.orders, d.id, s.id)
  }

  function AfterPersist(db: Db, k: Cart, c: CartChoice, d: Draft, attempt: nat, s: StripeSession): Cart {
    if PersistWorks(db, d, s, c) then
      k.(pc := Finished(Created(BuildCheckoutResult(d, k.request.mode, s)), db.now),
         calls := k.calls + [PersistTry(s.id, true)])
    else
      k.(pc := if c.ContextDone? || attempt + 1 >= PERSIST_ATTEMPTS then ExpireSession(d, s)
               else Persist(d, attempt + 1, s),
         cut := k.cut || c.ContextDone?,
         calls := k.calls + [PersistTry(s.id, false)])
  }

  /** The database after the saga's next step. */
  function CartDb(db: Db, k: Cart, c: CartChoice): Db {
    if c.Fault? then db
    else match k.pc
      case Clear(id, _) => ClearKey(db, id)
      case RenewToken(found) => if c.NewToken? then UpdateOrderToken(db, found.id, c.token) else db
      case InsertOrder(d) =>
        (match CreateOrderWithItems(db, d.id, RowFor(k, d, db.now)) case Ok(db') => db' case Err(_) => db)
      case Persist(d, _, s) =>
        if PersistWorks(db, d, s, c) then UpdateOrderSession(db, d.id, s.id, s.url, s.clientSecret) else db
      case Cancel(d, reason) => CancelOrder(db, d.id, reason)
      case _ => db
  }

  /** The saga after its next step. */
  function CartNext(db: Db, k: Cart, c: CartChoice): Cart {
    match k.pc
    case Resolve(second) =>
      if c.KeyLookup? then AfterResolve(db, k, c.pick, second) else Refuse(k, StoreError, db.now)
    case Clear(_, second) =>
      if c.Fault? then Refuse(k, StoreError, db.now)
      else if second then Refuse(k, InsertFailed(UniqueViolation), db.now)
      else k.(pc := Price)
    case RenewToken(found) =>
      if c.NewToken? && found.id in db.orders
      then k.(pc := Finished(Replayed(ReplayCheckout(found.id, found.row, c.token)), db.now))
      else Refuse(k, StoreError, db.now)
    case Price => if c.Catalog? then AfterPrice(k, c, db.now) else Refuse(k, StoreError, db.now)
    case InsertOrder(d) => if c.Fault? then Refuse(k, StoreError, db.now) else AfterInsert(db, k, d)
    case CreateSession(d) =>
      if c.StripeReply? then k.(pc := Persist(d, 0, c.session), calls := k.calls + [StripeCreate(Some(c.session))])
      else k.(pc := Cancel(d, REASON_STRIPE), calls := k.calls + [StripeCreate(None)])
    case Persist(d, attempt, s) => AfterPersist(db, k, c, d, attempt, s)
    case ExpireSession(d, s) => k.(pc := Cancel(d, REASON_PERSIST), calls := k.calls + [ExpireTry(s.id)])
    case Cancel(_, reason) =>
      Refuse(k.(calls := k.calls + [CancelTry(!c.Fault?)]),
             if reason == REASON_STRIPE then StripeFailed else PersistFailed, db.now)
    case Finished(_, _) => k
    case Died => k
  }
}
