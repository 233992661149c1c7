/** The webhook handler: how it turns an event into a completion, and its program, one
    store statement or local test at a time. */
module WebhookProgram {
  import opened Domain
  import opened Tables

  datatype PaymentStatus = SessionPaid | SessionUnpaid | SessionOther

  datatype Session = Session(
    id: string, complete: bool, payment: PaymentStatus, amount: int, currency: string, intent: Option<string>)

  datatype Charge = Charge(refunded: bool, intent: Option<string>, amount: int, currency: string)

  /** What an event carries. A handled event whose body does not parse is `Malformed`. */
  datatype Payload =
    | Unhandled
    | Malformed
    | SessionCompleted(session: Session)
    | AsyncSucceeded(session: Session)
    | AsyncFailed(session: Session)
    | SessionExpired(session: Session)
    | ChargeRefunded(charge: Charge)

  datatype BuildError =
    | Unparsable | StoreFault | MissingIntent | OrderNotFound
    | NotRefundable(status: OrderStatus) | MissingAmount | AmountMismatch | MissingCurrency | CurrencyMismatch

  /** A row together with the id it was read under. */
  datatype Found = Found(id: OrderId, row: Order)

  predicate Handled(p: Payload) {
    !p.Unhandled?
  }

  // ---- Amounts ---------------------------------------------------------------------

  /** The stored total must be exactly what Stripe reports, in the same currency. */
  function VerifyAmount(total: int, currency: string, amount: int, reported: string): Option<BuildError> {
    if amount <= 0 then Some(MissingAmount)
    else if total != amount then Some(AmountMismatch)
    else if reported == "" then Some(MissingCurrency)
    else if !EqualFold(reported, currency) then Some(CurrencyMismatch)
    else None
  }

  predicate AmountOk(row: Order, amount: int, reported: string) {
    VerifyAmount(row.total, row.currency, amount, reported) == None
  }

  /** Exactly the order's total, positive, in the order's currency. */
  predicate MoneyAgrees(row: Order, amount: int, reported: string) {
    0 < amount == row.total && reported != "" && SameCurrency(reported, row.currency)
  }

  lemma AmountOkExactly(row: Order, amount: int, reported: string)
    ensures AmountOk(row, amount, reported) <==> MoneyAgrees(row, amount, reported)
  {
    EqualFoldExactly(reported, row.currency);
  }

  // ---- Completions -------------------------------------------------------------------

  /** The order status an event asks for, if it asks for one. */
  function Target(p: Payload): Option<OrderStatus> {
    match p
    case SessionCompleted(s) =>
      if !s.complete then None
      else if s.payment == SessionPaid then Some(Paid)
      else if s.payment == SessionUnpaid then Some(Processing)
      else None
    case AsyncSucceeded(_) => Some(Paid)
    case AsyncFailed(_) => Some(Failed)
    case SessionExpired(_) => Some(Expired)
    case ChargeRefunded(c) => if c.refunded then Some(Refunded) else None
    case _ => None
  }

  function AllowedFrom(target: OrderStatus): set<OrderStatus> {
    match target
    case Paid => {Pending, Processing}
    case Processing => {Pending}
    case Failed => {Pending, Processing}
    case Expired => {Pending}
    case _ => {}
  }

  /** How a handler finds the order an event is about. */
  datatype Lookup = NoLookup | BySession(sessionId: string) | ByIntent(intent: string)

  function LookupFor(p: Payload): Lookup {
    match p
    case SessionCompleted(s) => if s.complete then BySession(s.id) else NoLookup
    case AsyncSucceeded(s) => BySession(s.id)
    case AsyncFailed(s) => BySession(s.id)
    case SessionExpired(s) => BySession(s.id)
    case ChargeRefunded(c) =>
      if c.refunded && c.intent.GetOr("") != "" then ByIntent(c.intent.value) else NoLookup
    case _ => NoLookup
  }

  predicate Finds(orders: map<OrderId, Order>, l: Lookup, pick: Option<OrderId>) {
    match l
    case NoLookup => pick == None
    case BySession(id) => FindsBySession(orders, id, pick)
    case ByIntent(i) => FindsByIntent(orders, i, pick)
  }

  function EmptyCompletion(e: EventId): Completion {
    Completion(e, None, None, None, None, {}, false)
  }

  function SessionIntent(s: Session): Option<string> {
    if s.intent.GetOr("") == "" then None else s.intent
  }

  function CompletionSessionCompleted(e: EventId, s: Session, found: Option<Found>, at: Time)
    : Result<Completion, BuildError>
  {
    if !s.complete then Ok(EmptyCompletion(e))
    else if found.None? then Err(OrderNotFound)
    else
      var problem := VerifyAmount(found.value.row.total, found.value.row.currency, s.amount, s.currency);
      if problem.Some? then Err(problem.value)
      else
        var c := EmptyCompletion(e).(orderId := Some(found.value.id));
        if s.payment == SessionPaid then
          Ok(c.(newStatus := Some(Paid), paymentIntent := SessionIntent(s), paidAt := Some(at),
              allowedFrom := AllowedFrom(Paid)))
        else if s.payment == SessionUnpaid then
          Ok(c.(newStatus := Some(Processing), paymentIntent := SessionIntent(s),
              allowedFrom := AllowedFrom(Processing)))
        else Ok(c)
  }

  function CompletionAsyncSucceeded(e: EventId, s: Session, found: Option<Found>, at: Time)
    : Result<Completion, BuildError>
  {
    if found.None? then Err(OrderNotFound)
    else
      var problem := VerifyAmount(found.value.row.total, found.value.row.currency, s.amount, s.currency);
      if problem.Some? then Err(problem.value)
      else Ok(EmptyCompletion(e).(orderId := Some(found.value.id), newStatus := Some(Paid),
                        paymentIntent := SessionIntent(s), paidAt := Some(at), allowedFrom := AllowedFrom(Paid)))
  }

  function CompletionAsyncFailed(e: EventId, found: Option<Found>): Result<Completion, BuildError> {
    if found.None? then Err(OrderNotFound)
    else Ok(EmptyCompletion(e).(orderId := Some(found.value.id), newStatus := Some(Failed),
        allowedFrom := AllowedFrom(Failed)))
  }

  function CompletionSessionExpired(e: EventId, found: Option<Found>): Result<Completion, BuildError> {
    if found.None? then Err(OrderNotFound)
    else Ok(EmptyCompletion(e).(orderId := Some(found.value.id), newStatus := Some(Expired),
        allowedFrom := AllowedFrom(Expired)))
  }

  function CompletionChargeRefunded(e: EventId, charge: Charge, found: Option<Found>): Result<Completion, BuildError> {
    if !charge.refunded then Ok(EmptyCompletion(e))
    else if charge.intent.GetOr("") == "" then Err(MissingIntent)
    else if found.None? then Err(OrderNotFound)
    else
      var row := found.value.row;
      var c := EmptyCompletion(e).(orderId := Some(found.value.id));
      if row.status == Refunded then Ok(c)
      else if row.status != Paid then Err(NotRefundable(row.status))
      else
        var problem := VerifyAmount(row.total, row.currency, charge.amount, charge.currency);
        if problem.Some? then Err(problem.value) else Ok(c.(refundOnly := true))
  }

  /** The completion a handler builds from an event and the row its lookup returned. */
  function Build(e: EventId, p: Payload, found: Option<Found>, at: Time): Result<Completion, BuildError> {
    match p
    case Unhandled => Ok(EmptyCompletion(e))
    case Malformed => Err(Unparsable)
    case SessionCompleted(s) => CompletionSessionCompleted(e, s, found, at)
    case AsyncSucceeded(s) => CompletionAsyncSucceeded(e, s, found, at)
    case AsyncFailed(_) => CompletionAsyncFailed(e, found)
    case SessionExpired(_) => CompletionSessionExpired(e, found)
    case ChargeRefunded(c) => CompletionChargeRefunded(e, c, found)
  }

  // ---- The program ---------------------------------------------------------------------

  datatype HookPc =
    | Read
    | TestStale(seen: EventRow)
    | Insert
    | RaceRead
    | Ignore
    | TryClaim
    | Unclaimed
    | BuildCompletion
    | Complete(completion: Completion, builtAt: Time)
    | ReportFailure
    | Done(outcome: Outcome)
    | Crashed

  /** One running handler. `claimedAt` only records when its claim succeeded. */
  datatype Hook = Hook(event: EventId, pc: HookPc, started: Time, claimedAt: Option<Time>)

  /** Whether the next store call fails, and which row a lookup returns. */
  datatype HookChoice = HookChoice(fault: bool, pick: Option<OrderId>)

  predicate HookRunning(h: Hook) {
    !h.pc.Done? && !h.pc.Crashed?
  }

  predicate HookEnabled(db: Db, p: Payload, h: Hook, c: HookChoice) {
    && HookRunning(h)
    && (h.pc.BuildCompletion? && !c.fault ==> Finds(db.orders, LookupFor(p), c.pick))
  }

  /** After the event row is known to be there and open. */
  function Proceed(p: Payload, h: Hook): Hook {
    h.(pc := if Handled(p) then TryClaim else Ignore)
  }

  function AfterRead(db: Db, p: Payload, h: Hook): Hook {
    if h.event !in db.events then h.(pc := Insert)
    else match db.events[h.event].status
      case Processed => h.(pc := Done(Acknowledged))
      case Ignored => h.(pc := Done(Acknowledged))
      case Rejected => Proceed(p, h)
      case Received => h.(pc := Done(RetryLater))
      case InFlight => h.(pc := TestStale(db.events[h.event]))
  }

  /** What a handler that lost the insert race answers. */
  function RaceOutcome(db: Db, e: EventId): Outcome {
    if e in db.events && db.events[e].status in {Processed, Ignored} then Acknowledged else RetryLater
  }

  /** What a handler whose claim matched no row answers. */
  function UnclaimedOutcome(db: Db, e: EventId): Outcome {
    if e !in db.events then RetryLater
    else match db.events[e].status
      case Processed => Acknowledged
      case Rejected => ProcessingFailed
      case _ => RetryLater
  }

  function FoundIn(orders: map<OrderId, Order>, pick: Option<OrderId>): Option<Found> {
    match pick
    case Some(id) => if id in orders then Some(Found(id, orders[id])) else None
    case None => None
  }

  function AfterBuild(db: Db, p: Payload, h: Hook, c: HookChoice): Hook {
    if c.fault && !LookupFor(p).NoLookup? then h.(pc := ReportFailure)
    else match Build(h.event, p, if c.fault then None else FoundIn(db.orders, c.pick), db.now)
      case Ok(completion) => h.(pc := Complete(completion, db.now))
      case Err(_) => h.(pc := ReportFailure)
  }

  /** The database after the handler's next step. */
  function HookDb(db: Db, p: Payload, h: Hook, c: HookChoice): Db {
    if c.fault then db
    else match h.pc
      case Insert => if h.event in db.events then db else InsertEvent(db, h.event)
      case Ignore => IgnoreEvent(db, h.event)
      case TryClaim => Claim(db, h.event)
      case Complete(completion, _) =>
        (match CompleteTx(db, completion) case Ok(db') => db' case Err(_) => db)
      case ReportFailure => FailEvent(db, h.event)
      case _ => db
  }

  /** The handler after its next step. */
  function HookNext(db: Db, p: Payload, h: Hook, c: HookChoice): Hook {
    match h.pc
    case Read => if c.fault then h.(pc := Done(RetryLater)) else AfterRead(db, p, h)
    case TestStale(seen) =>
      if IsStaleWebhookProcessing(seen, db.now) then Proceed(p, h) else h.(pc := Done(RetryLater))
    case Insert =>
      if c.fault then h.(pc := Done(RetryLater))
      else if h.event in db.events then h.(pc := RaceRead)
      else Proceed(p, h)
    case RaceRead => h.(pc := Done(if c.fault then RetryLater else RaceOutcome(db, h.event)))
    case Ignore => h.(pc := Done(Acknowledged))
    case TryClaim =>
      if c.fault then h.(pc := Done(RetryLater))
      else if CanClaim(db, h.event) then h.(pc := BuildCompletion, claimedAt := Some(db.now))
      else h.(pc := Unclaimed)
    case Unclaimed => h.(pc := Done(if c.fault then RetryLater else UnclaimedOutcome(db, h.event)))
    case BuildCompletion => AfterBuild(db, p, h, c)
    case Complete(completion, _) =>
      if !c.fault && CompleteTx(db, completion).Ok? then h.(pc := Done(Acknowledged))
      else h.(pc := Done(ProcessingFailed))
    case ReportFailure => h.(pc := Done(ProcessingFailed))
    case Done(_) => h
    case Crashed => h
  }
}
