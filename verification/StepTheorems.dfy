/** What each single step of a run does, whatever else is going on: where a handler or a
    checkout goes next, and what it writes, said row by row. */
module StepTheorems {
  import opened Domain
  import opened Pricing
  import opened Tables
  import opened WebhookProgram
  import opened CheckoutProgram
  import opened Protocol
  import opened Invariants
  import opened Completions
  import opened Moving
  import opened Runs
  import opened Canonical
  import opened Validation
  import ThreadInvariants
  import EventTheorems
  import SagaTheorems
  import opened DeliveryTheorems

  // ---- Handlers ----------------------------------------------------------------------

  function SetEvent(db: Db, e: EventId, row: EventRow): Db {
    db.(events := db.events[e := row])
  }

  /** Where a handler goes once its event is recorded and open. */
  function Onward(p: Payload): HookPc {
    if p.Unhandled? then Ignore else TryClaim
  }

  function AfterFirstRead(db: Db, p: Payload, e: EventId): HookPc {
    if e !in db.events then Insert
    else match db.events[e].status
      case Processed => Done(Acknowledged)
      case Ignored => Done(Acknowledged)
      case Received => Done(RetryLater)
      case Rejected => Onward(p)
      case InFlight => TestStale(db.events[e])
  }

  function StatusIn(db: Db, e: EventId, statuses: set<EventStatus>): bool {
    e in db.events && db.events[e].status in statuses
  }

  predicate ClaimableNow(db: Db, e: EventId) {
    StatusIn(db, e, {Received, Rejected}) || (StatusIn(db, e, {InFlight}) && Recoverable(db, e))
  }

  /** Does the event's type require an order to be looked up? */
  predicate NeedsOrder(p: Payload) {
    SessionEvent(p) || (RefundEvent(p) && p.charge.intent.GetOr("") != "")
  }

  /** Steps that leave the tables alone: reads, and tests of what has been read. */
  predicate ReadsTo(db: Db, p: Payload, h: Hook, fault: bool, pc: HookPc) {
    match h.pc
    case Read => pc == if fault then Done(RetryLater) else AfterFirstRead(db, p, h.event)
    case TestStale(seen) =>
      pc == if seen.startedAt.Some? && seen.startedAt.value + 300_000 <= db.now then Onward(p) else Done(RetryLater)
    case RaceRead =>
      pc == Done(if !fault && StatusIn(db, h.event, {Processed, Ignored}) then Acknowledged else RetryLater)
    case Unclaimed =>
      pc == Done(if !fault && StatusIn(db, h.event, {Processed}) then Acknowledged
                 else if !fault && StatusIn(db, h.event, {Rejected}) then ProcessingFailed
                 else RetryLater)
    case _ => false
  }

  /** Steps that write the event's own row, each in one way only. */
  predicate WritesTo(db: Db, p: Payload, h: Hook, fault: bool, db': Db, pc: HookPc) {
    match h.pc
    case Insert =>
      if fault then db' == db && pc == Done(RetryLater)
      else if h.event in db.events then db' == db && pc == RaceRead
      else db' == SetEvent(db, h.event, EventRow(Received, None, db.now, None, None)) && pc == Onward(p)
    case Ignore =>
      && pc == Done(Acknowledged)
      && db' == if fault || h.event !in db.events then db
                else SetEvent(db, h.event, db.events[h.event].(status := Ignored, processedAt := Some(db.now)))
    case TryClaim =>
      if fault then db' == db && pc == Done(RetryLater)
      else if ClaimableNow(db, h.event) then
        && db' == SetEvent(db, h.event, db.events[h.event].(status := InFlight, startedAt := Some(db.now)))
        && pc == BuildCompletion
      else db' == db && pc == Unclaimed
    case ReportFailure =>
      && pc == Done(ProcessingFailed)
      && db' == if fault || !StatusIn(db, h.event, {InFlight}) then db
                else SetEvent(db, h.event, db.events[h.event].(status := Rejected))
    case _ => false
  }

  /** A completion is built exactly when the event has all it needs, except perhaps the
      right status of its order. */
  ghost predicate BuildsTo(db: Db, p: Payload, c: HookChoice, pc: HookPc) {
    if c.fault && NeedsOrder(p) then pc == ReportFailure
    else if Accepts(db.orders, p, c.pick) || TurnedAway(db.orders, p, c.pick) then
      pc.Complete? && pc.builtAt == db.now && (NeedsOrder(p) ==> pc.completion.orderId == c.pick)
    else pc == ReportFailure
  }

  /** The commit succeeds exactly when the event is in flight and its order takes it now,
      however old the completion is; it writes the order and the event together. */
  ghost predicate CommitsTo(db: Db, p: Payload, h: Hook, fault: bool, db': Db, pc: HookPc)
    requires h.pc.Complete?
  {
    var e, id := h.event, h.pc.completion.orderId;
    if !fault && StatusIn(db, e, {InFlight}) && Accepts(db.orders, p, id) then
      && pc == Done(Acknowledged)
      && OrdersAfter(db.orders, db'.orders, p, id, h.pc.builtAt) && db'.now == db.now
      && db'.events == db.events[e := db.events[e].(status := Processed, processedAt := Some(db.now),
                                                    orderId := if id.Some? then id else db.events[e].orderId)]
    else pc == Done(ProcessingFailed) && db' == db
  }

  ghost predicate HandlerMoves(db: Db, p: Payload, h: Hook, c: HookChoice, db': Db, pc: HookPc) {
    match h.pc
    case BuildCompletion => db' == db && BuildsTo(db, p, c, pc)
    case Complete(_, _) => CommitsTo(db, p, h, c.fault, db', pc)
    case Insert => WritesTo(db, p, h, c.fault, db', pc)
    case Ignore => WritesTo(db, p, h, c.fault, db', pc)
    case TryClaim => WritesTo(db, p, h, c.fault, db', pc)
    case ReportFailure => WritesTo(db, p, h, c.fault, db', pc)
    case _ => db' == db && ReadsTo(db, p, h, c.fault, pc)
  }

  lemma BuildMoves(db: Db, p: Payload, h: Hook, c: HookChoice)
    requires SessionsUnique(db.orders) && HookOk(db, p, h) && HookEnabled(db, p, h, c) && h.pc.BuildCompletion?
    ensures BuildsTo(db, p, c, HookNext(db, p, h, c).pc)
  {
    if !c.fault {
      CommitExactly(db.orders, h.event, p, c.pick, db.now);
      if Build(h.event, p, FoundIn(db.orders, c.pick), db.now).Ok? {
        BuiltFor(db, p, h.event, c.pick, db.now);
      }
    } else if !NeedsOrder(p) {
      CommitExactly(db.orders, h.event, p, None, db.now);
    }
  }

  lemma BuiltFor(db: Db, p: Payload, e: EventId, pick: Option<OrderId>, at: Time)
    requires Finds(db.orders, LookupFor(p), pick) && Build(e, p, FoundIn(db.orders, pick), at).Ok?
    ensures NeedsOrder(p) ==> Build(e, p, FoundIn(db.orders, pick), at).value.orderId == pick
  {
  }

  /** Order update and event update together, or neither. */
  lemma TransactionExactly(db: Db, c: Completion)
    ensures CompleteTx(db, c).Ok? <==> UpdateOrderFor(db.orders, c).Ok? && StatusIn(db, c.event, {InFlight})
    ensures CompleteTx(db, c).Ok? ==>
              var db' := CompleteTx(db, c).value;
              && UpdateOrderFor(db.orders, c) == Ok(db'.orders) && db'.now == db.now
              && db'.events == db.events[c.event := db.events[c.event].(
                                 status := Processed, processedAt := Some(db.now),
                                 orderId := if c.orderId.Some? then c.orderId else db.events[c.event].orderId)]
  {
  }

  /** What was built from a row as it was can be built from the row as it is now. */
  lemma StillFinds(db: Db, p: Payload, e: EventId, c: Completion, at: Time)
    requires CompletionOk(db.orders, e, p, c, at)
    ensures Finds(db.orders, LookupFor(p), c.orderId)
  {
    EventTheorems.RebuildState(db, e, p, c, at);
  }

  lemma CompleteMoves(db: Db, p: Payload, h: Hook, c: HookChoice)
    requires SessionsUnique(db.orders) && HookOk(db, p, h) && h.pc.Complete?
    ensures CommitsTo(db, p, h, c.fault, HookDb(db, p, h, c), HookNext(db, p, h, c).pc)
  {
    var completion, at := h.pc.completion, h.pc.builtAt;
    StillFinds(db, p, h.event, completion, at);
    RebuiltCommit(db, p, h.event, completion, at);
    CommitExactly(db.orders, h.event, p, completion.orderId, at);
    CompletionFacts(db.orders, h.event, p, completion, at);
    TransactionExactly(db, completion);
    CompleteNext(db, p, h, c);
  }

  lemma CompleteNext(db: Db, p: Payload, h: Hook, c: HookChoice)
    requires h.pc.Complete?
    ensures var tx := CompleteTx(db, h.pc.completion);
            && (!c.fault && tx.Ok? ==>
                  HookDb(db, p, h, c) == tx.value && HookNext(db, p, h, c).pc == Done(Acknowledged))
            && (c.fault || tx.Err? ==> HookDb(db, p, h, c) == db && HookNext(db, p, h, c).pc == Done(ProcessingFailed))
  {
  }

  /** The transaction of a stale completion does what that of a rebuilt one does. */
  lemma RebuiltCommit(db: Db, p: Payload, e: EventId, c: Completion, at: Time)
    requires CompletionOk(db.orders, e, p, c, at)
    ensures var built := Build(e, p, FoundIn(db.orders, c.orderId), at);
            && built.Ok? && built.value.event == e && built.value.orderId == c.orderId
            && UpdateOrderFor(db.orders, built.value) == UpdateOrderFor(db.orders, c)
  {
    if c.orderId.Some? {
      EventTheorems.SameUpdate(db.orders, e, p, c, at);
    }
    CompletionFacts(db.orders, e, p, c, at);
  }

  lemma HandlerState(db: Db, p: Payload, h: Hook, c: HookChoice)
    requires SessionsUnique(db.orders) && HookOk(db, p, h) && HookEnabled(db, p, h, c)
    ensures HandlerMoves(db, p, h, c, HookDb(db, p, h, c), HookNext(db, p, h, c).pc)
  {
    match h.pc {
      case BuildCompletion => BuildMoves(db, p, h, c);
      case Complete(_, _) => CompleteMoves(db, p, h, c);
      case _ =>
    }
  }

  /** Every step of every handler in every run. */
  lemma HandlerStepExactly(tr: seq<State>, acts: seq<Action>, i: nat, t: Tid, c: HookChoice)
    requires Run(tr, acts) && i < |acts| && acts[i] == HookStep(t, c)
    ensures t in tr[i].hooks && tr[i].hooks[t].event in tr[i].payloads && t in tr[i + 1].hooks
    ensures HandlerMoves(tr[i].db, tr[i].payloads[tr[i].hooks[t].event], tr[i].hooks[t], c,
                         tr[i + 1].db, tr[i + 1].hooks[t].pc)
  {
    RunInv(tr, acts, i);
    assert StepAt(tr, acts, i);
    HookStepShape(tr[i], t, c);
    HookKnown(tr[i], t);
    HandlerState(tr[i].db, tr[i].payloads[tr[i].hooks[t].event], tr[i].hooks[t], c);
  }

  // ---- Checkouts ---------------------------------------------------------------------

  function SetOrder(db: Db, id: OrderId, row: Order): Db {
    db.(orders := db.orders[id := row])
  }

  function Refusal(e: CheckoutError, now: Time): CartPc {
    Finished(Refused(e), now)
  }

  /** The hash stored with the order's metadata. */
  function StoredHashOf(row: Order): string {
    if "_request_body_hash" in row.metadata then row.metadata["_request_body_hash"] else ""
  }

  predicate LookupTo(db: Db, k: Cart, second: bool, pick: Option<OrderId>, pc: CartPc) {
    match pick
    case None => pc == if second then Refusal(InsertFailed(UniqueViolation), db.now) else Price
    case Some(id) =>
      && id in db.orders && db.orders[id].key == Some(k.key)
      && var row := db.orders[id];
         pc == if row.status == Canceled then Clear(id, second)
               else if StoredHashOf(row) !in {"", k.hash} then Refusal(IdempotencyConflict, db.now)
               else if row.sessionId == None || row.sessionId == Some("") then Refusal(CheckoutInProgress, db.now)
               else RenewToken(Found(id, row))
  }

  predicate ResolvesTo(db: Db, k: Cart, c: CartChoice, pc: CartPc)
    requires k.pc.Resolve?
  {
    if c.KeyLookup? then LookupTo(db, k, k.pc.second, c.pick, pc) else pc == Refusal(StoreError, db.now)
  }

  predicate ClearsTo(db: Db, k: Cart, c: CartChoice, db': Db, pc: CartPc)
    requires k.pc.Clear?
  {
    var id := k.pc.id;
    if c.Fault? then db' == db && pc == Refusal(StoreError, db.now)
    else
      && pc == (if k.pc.second then Refusal(InsertFailed(UniqueViolation), db.now) else Price)
      && db' == if id in db.orders && db.orders[id].status == Canceled
                then SetOrder(db, id, db.orders[id].(key := None)) else db
  }

  /** The answer read off a stored row: the address for hosted pages, the secret for
      embedded ones, and the new token. */
  predicate ShowsRow(r: CheckoutResult, id: OrderId, row: Order, token: string) {
    && r.orderId == id && r.number == row.number && row.sessionId == Some(r.sessionId) && r.token == token
    && (if row.mode == "hosted" then row.url.GetOr("") == r.url else r.url == "")
    && (if row.mode == "embedded" then row.clientSecret.GetOr("") == r.clientSecret else r.clientSecret == "")
  }

  predicate RenewsTo(db: Db, k: Cart, c: CartChoice, db': Db, pc: CartPc)
    requires k.pc.RenewToken?
  {
    var f := k.pc.found;
    if c.Fault? then db' == db && pc == Refusal(StoreError, db.now)
    else
      && c.NewToken? && f.id in db.orders
      && db' == SetOrder(db, f.id, db.orders[f.id].(tokenHash := Some(c.token)))
      && pc.Finished? && pc.at == db.now && pc.reply.Replayed? && ShowsRow(pc.reply.result, f.id, f.row, c.token)
  }

  predicate PricesAs(db: Db, k: Cart, c: CartChoice, pc: CartPc) {
    if c.Fault? then pc == Refusal(StoreError, db.now)
    else
      && c.Catalog?
      && match PriceItems(k.request.items, c.products)
         case Err(e) => pc == Refusal(PricingFailed(e), db.now)
         case Ok(p) => pc == InsertOrder(Draft(c.id, c.number, c.token, p.total, p.currency, p.lines))
  }

  /** The row of a new order, column by column. */
  function NewRow(k: Cart, d: Draft, now: Time): Order {
    Order(d.number, if k.key == "" then None else Some(k.key), Pending, d.total, d.currency,
          None, None, None, None, k.request.mode, k.request.metadata["_request_body_hash" := k.hash],
          None, now, if d.token == "" then None else Some(d.token), d.lines)
  }

  /** Some order already has the id, the number or the key. */
  ghost predicate Taken(db: Db, k: Cart, d: Draft) {
    || d.id in db.orders
    || exists other :: other in db.orders &&
         (db.orders[other].number == d.number || (k.key != "" && db.orders[other].key == Some(k.key)))
  }

  predicate PositiveLines(lines: seq<Line>) {
    forall i :: 0 <= i < |lines| ==> lines[i].quantity > 0 && lines[i].unit > 0 && lines[i].lineTotal > 0
  }

  ghost predicate InsertsTo(db: Db, k: Cart, c: CartChoice, db': Db, pc: CartPc)
    requires k.pc.InsertOrder?
  {
    var d := k.pc.draft;
    if c.Fault? then db' == db && pc == Refusal(StoreError, db.now)
    else if d.total <= 0 then db' == db && pc == Refusal(InsertFailed(CheckViolation), db.now)
    else if Taken(db, k, d) then
      db' == db && pc == if k.key != "" then Resolve(true) else Refusal(InsertFailed(UniqueViolation), db.now)
    else if !PositiveLines(d.lines) then db' == db && pc == Refusal(InsertFailed(CheckViolation), db.now)
    else db' == SetOrder(db, d.id, NewRow(k, d, db.now)) && pc == CreateSession(d)
  }

  /** The first answer: what Stripe returned, and the token stored with the order. */
  predicate ShowsSession(r: CheckoutResult, d: Draft, mode: string, x: StripeSession) {
    && r.orderId == d.id && r.number == d.number && r.sessionId == x.id && r.token == d.token
    && r.url == (if mode == "hosted" then x.url else "")
    && r.clientSecret == (if mode == "hosted" then "" else x.clientSecret)
  }

  function Nullable(value: string): Option<string> {
    if |value| == 0 then None else Some(value)
  }

  ghost predicate StoresTo(db: Db, k: Cart, c: CartChoice, db': Db, k': Cart)
    requires k.pc.Persist?
  {
    var d, x := k.pc.draft, k.pc.session;
    var taken := exists other :: other in db.orders && other != d.id && db.orders[other].sessionId == Some(x.id);
    if c.Proceeds? && !taken then
      && d.id in db.orders
      && db' == SetOrder(db, d.id, db.orders[d.id].(sessionId := Some(x.id), url := Nullable(x.url),
                                                    clientSecret := Nullable(x.clientSecret)))
      && k'.pc.Finished? && k'.pc.at == db.now && k'.pc.reply.Created?
      && ShowsSession(k'.pc.reply.result, d, k.request.mode, x)
    else
      && db' == db
      && k'.pc == if c.ContextDone? || k.pc.attempt == 2 then ExpireSession(d, x) else Persist(d, k.pc.attempt + 1, x)
  }

  predicate CancelsTo(db: Db, k: Cart, c: CartChoice, db': Db, pc: CartPc)
    requires k.pc.Cancel?
  {
    var id := k.pc.draft.id;
    && pc == Refusal(if k.pc.reason == "stripe_api_error" then StripeFailed else PersistFailed, db.now)
    && (if c.Fault? then db' == db
        else id in db.orders
             && db' == SetOrder(db, id, db.orders[id].(status := Canceled, key := None,
                                        metadata := db.orders[id].metadata["cancel_reason" := k.pc.reason])))
  }

  ghost predicate CheckoutMoves(db: Db, k: Cart, c: CartChoice, db': Db, k': Cart) {
    && k'.request == k.request && k'.key == k.key && k'.hash == k.hash && k'.started == k.started
    && k'.cut == (k.cut || c.ContextDone?)
    && match k.pc
       case Resolve(_) => db' == db && ResolvesTo(db, k, c, k'.pc)
       case Clear(_, _) => ClearsTo(db, k, c, db', k'.pc)
       case RenewToken(_) => RenewsTo(db, k, c, db', k'.pc)
       case Price => db' == db && PricesAs(db, k, c, k'.pc)
       case InsertOrder(_) => InsertsTo(db, k, c, db', k'.pc)
       case CreateSession(d) =>
         db' == db && k'.pc == if c.StripeReply? then Persist(d, 0, c.session) else Cancel(d, "stripe_api_error")
       case Persist(_, _, _) => StoresTo(db, k, c, db', k')
       case ExpireSession(d, _) => db' == db && k'.pc == Cancel(d, "persist_failed")
       case Cancel(_, _) => CancelsTo(db, k, c, db', k'.pc)
       case _ => false
  }

  lemma InsertMovesTo(db: Db, k: Cart, c: CartChoice)
    requires k.pc.InsertOrder? && CartEnabled(db, k, c)
    ensures InsertsTo(db, k, c, CartDb(db, k, c), CartNext(db, k, c).pc)
  {
    var d := k.pc.draft;
    assert RowFor(k, d, db.now) == NewRow(k, d, db.now);
    assert Collides(db.orders, d.id, NewRow(k, d, db.now)) <==> Taken(db, k, d);
  }

  lemma RenewMovesTo(db: Db, k: Cart, c: CartChoice)
    requires k.pc.RenewToken? && CartEnabled(db, k, c) && k.pc.found.id in db.orders
    requires k.pc.found.row.sessionId.Some?
    ensures RenewsTo(db, k, c, CartDb(db, k, c), CartNext(db, k, c).pc)
  {
  }

  lemma PersistMovesTo(db: Db, k: Cart, c: CartChoice)
    requires k.pc.Persist? && CartEnabled(db, k, c) && k.pc.draft.id in db.orders && k.pc.attempt < 3
    ensures StoresTo(db, k, c, CartDb(db, k, c), CartNext(db, k, c))
  {
    assert HOSTED == "hosted";
  }

  lemma ResolveMovesTo(db: Db, k: Cart, c: CartChoice)
    requires k.pc.Resolve? && CartEnabled(db, k, c)
    ensures CartDb(db, k, c) == db && ResolvesTo(db, k, c, CartNext(db, k, c).pc)
  {
  }

  lemma CancelMovesTo(db: Db, k: Cart, c: CartChoice)
    requires k.pc.Cancel? && CartEnabled(db, k, c) && k.pc.draft.id in db.orders
    ensures CancelsTo(db, k, c, CartDb(db, k, c), CartNext(db, k, c).pc)
  {
  }

  lemma CheckoutState(s: State, t: Tid, k: Cart, c: CartChoice)
    requires CartOk(s, t, k) && CartEnabled(s.db, k, c) && (k.pc.Persist? ==> k.pc.attempt < 3)
    ensures CheckoutMoves(s.db, k, c, CartDb(s.db, k, c), CartNext(s.db, k, c))
  {
    ThreadInvariants.SameRequest(s.db, k, c);
    match k.pc {
      case Resolve(_) => ResolveMovesTo(s.db, k, c);
      case RenewToken(_) => RenewMovesTo(s.db, k, c);
      case InsertOrder(_) => InsertMovesTo(s.db, k, c);
      case Persist(_, _, _) => PersistMovesTo(s.db, k, c);
      case Cancel(_, _) => CancelMovesTo(s.db, k, c);
      case _ =>
    }
  }

  /** Every step of every checkout in every run. */
  lemma CheckoutStepExactly(tr: seq<State>, acts: seq<Action>, i: nat, t: Tid, c: CartChoice)
    requires Run(tr, acts) && i < |acts| && acts[i] == CartStep(t, c)
    ensures t in tr[i].carts && t in tr[i + 1].carts
    ensures CheckoutMoves(tr[i].db, tr[i].carts[t], c, tr[i + 1].db, tr[i + 1].carts[t])
  {
    RunInv(tr, acts, i);
    SagaTheorems.RunSagas(tr, acts, i);
    assert StepAt(tr, acts, i);
    CartStepShape(tr[i], t, c);
    CartKnown(tr[i], t);
    assert SagaTheorems.SagaOk(tr[i], t, tr[i].carts[t]);
    CheckoutState(tr[i], t, tr[i].carts[t], c);
  }

  /** A sweep cancels exactly the pending orders without a session that are more than
      fifteen minutes old, and says so in their metadata. */
  lemma SweepStepExactly(tr: seq<State>, acts: seq<Action>, i: nat)
    requires Run(tr, acts) && i < |acts| && acts[i] == Sweep
    ensures tr[i + 1].db.events == tr[i].db.events && tr[i + 1].db.orders.Keys == tr[i].db.orders.Keys
    ensures forall id :: id in tr[i].db.orders ==>
              var row := tr[i].db.orders[id];
              tr[i + 1].db.orders[id] ==
              if row.status == Pending && row.sessionId == None && row.createdAt + 900_000 < tr[i].db.now
              then row.(status := Canceled, metadata := row.metadata["cancel_reason" := "stale_checkout"]) else row
  {
    assert StepAt(tr, acts, i);
    SweepState(tr[i].db);
  }

  lemma SweepState(db: Db)
    ensures var db' := CancelStalePendingOrders(db);
            && db'.events == db.events && db'.orders.Keys == db.orders.Keys
            && forall id :: id in db.orders ==>
                 var row := db.orders[id];
                 db'.orders[id] ==
                 if row.status == Pending && row.sessionId == None && row.createdAt + 900_000 < db.now
                 then row.(status := Canceled, metadata := row.metadata["cancel_reason" := "stale_checkout"]) else row
  {
  }

  /** A submitted checkout starts with its key, if it has one, and otherwise with pricing. */
  lemma SubmitStepExactly(tr: seq<State>, acts: seq<Action>, i: nat, t: Tid, r: Request, key: string, parses: bool)
    requires Run(tr, acts) && i < |acts| && acts[i] == Submit(t, r, key, parses)
    ensures t !in tr[i].carts && t in tr[i + 1].carts && tr[i + 1].db == tr[i].db
    ensures var k := tr[i + 1].carts[t];
            && k.request == r && k.key == key && k.hash == CanonicalText(r) && k.started == tr[i].db.now
            && !k.cut && k.mine == None && k.calls == [] && k.pc == if key == "" then Price else Resolve(false)
  {
    assert StepAt(tr, acts, i);
  }
}
