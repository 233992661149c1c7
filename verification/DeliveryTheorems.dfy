/** What one fault-free delivery that nobody interferes with does, from its first read to its
    answer: the answer itself, the event row and the order row it leaves, said without the
    program that produces them. */
module DeliveryTheorems {
  import opened Domain
  import opened Tables
  import opened WebhookProgram
  import opened Protocol
  import opened Invariants
  import opened Completions
  import opened Moving
  import opened Runs
  import opened ClaimTheorems

  // ---- A delivery on its own ---------------------------------------------------------

  /** A fault-free delivery after `n` of its own steps, all within one instant; `pick` is
      the row its order lookup returns. */
  function Solo(db: Db, p: Payload, h: Hook, pick: Option<OrderId>, n: nat): (Db, Hook)
    decreases n
  {
    if n == 0 || !HookRunning(h) then (db, h)
    else
      var c := HookChoice(false, pick);
      Solo(HookDb(db, p, h, c), p, HookNext(db, p, h, c), pick, n - 1)
  }

  /** A whole delivery; it takes at most five steps. */
  function SoloRun(db: Db, p: Payload, e: EventId, pick: Option<OrderId>): (Db, Hook) {
    Solo(db, p, Hook(e, Read, db.now, None), pick, 5)
  }

  lemma OneStep(db: Db, p: Payload, h: Hook, pick: Option<OrderId>, n: nat)
    requires n > 0 && HookRunning(h)
    ensures var c := HookChoice(false, pick);
            Solo(db, p, h, pick, n) == Solo(HookDb(db, p, h, c), p, HookNext(db, p, h, c), pick, n - 1)
  {
  }

  lemma Stopped(db: Db, p: Payload, h: Hook, pick: Option<OrderId>, n: nat)
    requires !HookRunning(h)
    ensures Solo(db, p, h, pick, n) == (db, h)
  {
  }

  /** New, failed, or claimed more than five minutes ago. */
  predicate Recoverable(db: Db, e: EventId) {
    || e !in db.events
    || db.events[e].status == Rejected
    || (db.events[e].status == InFlight && db.events[e].startedAt.GetOr(db.events[e].createdAt) + 300_000 < db.now)
  }

  predicate IsProcessed(db: Db, e: EventId) {
    e in db.events && db.events[e].status == Processed
  }

  /** What is known of the row of a handled event. */
  predicate RowSane(db: Db, e: EventId) {
    e in db.events ==>
      db.events[e].status != Ignored && (db.events[e].status == InFlight ==> db.events[e].startedAt.Some?)
  }

  // ---- What an event needs of its order, and what it writes --------------------------

  predicate SessionEvent(p: Payload) {
    (p.SessionCompleted? && p.session.complete) || p.AsyncSucceeded? || p.AsyncFailed? || p.SessionExpired?
  }

  predicate RefundEvent(p: Payload) {
    p.ChargeRefunded? && p.charge.refunded
  }

  /** The event is about this order. */
  predicate Meant(orders: map<OrderId, Order>, p: Payload, pick: Option<OrderId>, id: OrderId) {
    && id in orders
    && ((SessionEvent(p) && orders[id].sessionId == Some(p.session.id))
        || (RefundEvent(p) && pick == Some(id) && p.charge.intent.GetOr("") != ""
            && orders[id].paymentIntent == p.charge.intent))
  }

  /** The row is one the event can be processed for: the money agrees where the event
      speaks of money, and the status is one of those listed. */
  predicate RowTakes(row: Order, p: Payload) {
    match p
    case SessionCompleted(x) =>
      MoneyAgrees(row, x.amount, x.currency)
      && (x.payment == SessionOther || row.status in {Pending, Processing, Paid, Refunded})
    case AsyncSucceeded(x) =>
      MoneyAgrees(row, x.amount, x.currency) && row.status in {Pending, Processing, Paid, Refunded}
    case AsyncFailed(_) => row.status in {Pending, Processing, Failed, Paid, Refunded}
    case SessionExpired(_) => row.status in {Pending, Expired, Paid, Refunded}
    case ChargeRefunded(x) =>
      row.status == Refunded || (row.status == Paid && MoneyAgrees(row, x.amount, x.currency))
    case _ => false
  }

  /** The event can be processed: it asks nothing of any order, or there is one it is about
      and can be processed for. */
  ghost predicate Accepts(orders: map<OrderId, Order>, p: Payload, pick: Option<OrderId>) {
    || (p.SessionCompleted? && !p.session.complete)
    || (p.ChargeRefunded? && !p.charge.refunded)
    || exists id :: Meant(orders, p, pick, id) && RowTakes(orders[id], p)
  }

  /** The money agrees where the event speaks of money. */
  predicate MoneyFits(row: Order, p: Payload) {
    p.SessionCompleted? || p.AsyncSucceeded? ==> MoneyAgrees(row, p.session.amount, p.session.currency)
  }

  /** A completion can be built, but the status of the order turns the commit away. */
  ghost predicate TurnedAway(orders: map<OrderId, Order>, p: Payload, pick: Option<OrderId>) {
    SessionEvent(p) && exists id :: Meant(orders, p, pick, id) && MoneyFits(orders[id], p) && !RowTakes(orders[id], p)
  }

  function IntentOr(x: Session, before: Option<string>): Option<string> {
    if x.intent.GetOr("") == "" then before else x.intent
  }

  /** The row a processed event leaves. */
  function RowAfter(row: Order, p: Payload, now: Time): Order {
    match p
    case SessionCompleted(x) =>
      if x.payment == SessionPaid && row.status in {Pending, Processing} then
        row.(status := Paid, paymentIntent := IntentOr(x, row.paymentIntent), paidAt := Some(now))
      else if x.payment == SessionUnpaid && row.status == Pending then
        row.(status := Processing, paymentIntent := IntentOr(x, row.paymentIntent))
      else row
    case AsyncSucceeded(x) =>
      if row.status in {Pending, Processing} then
        row.(status := Paid, paymentIntent := IntentOr(x, row.paymentIntent), paidAt := Some(now))
      else row
    case AsyncFailed(_) => if row.status in {Pending, Processing} then row.(status := Failed) else row
    case SessionExpired(_) => if row.status == Pending then row.(status := Expired) else row
    case ChargeRefunded(_) => if row.status == Paid then row.(status := Refunded) else row
    case _ => row
  }

  /** The order table a processed event leaves: only the order it is about changes. */
  ghost predicate OrdersAfter(before: map<OrderId, Order>, after: map<OrderId, Order>,
      p: Payload, pick: Option<OrderId>, now: Time)
  {
    && after.Keys == before.Keys
    && forall id :: id in before ==>
         after[id] == if Meant(before, p, pick, id) then RowAfter(before[id], p, now) else before[id]
  }

  ghost predicate NamesOrder(orders: map<OrderId, Order>, p: Payload, pick: Option<OrderId>,
      before: Option<OrderId>, after: Option<OrderId>)
  {
    && (forall id :: Meant(orders, p, pick, id) ==> after == Some(id))
    && ((forall id :: id in orders ==> !Meant(orders, p, pick, id)) ==> after == before)
  }

  // ---- The commit, row by row --------------------------------------------------------

  lemma RefundRow(orders: map<OrderId, Order>, e: EventId, p: Payload, id: OrderId, at: Time)
    requires id in orders && RefundEvent(p) && p.charge.intent.GetOr("") != ""
    ensures var built := Build(e, p, Some(Found(id, orders[id])), at);
            && (built.Ok? <==> RowTakes(orders[id], p))
            && (RowTakes(orders[id], p) ==>
                  && built.value.event == e && built.value.orderId == Some(id)
                  && UpdateOrderFor(orders, built.value) == Ok(orders[id := RowAfter(orders[id], p, at)]))
  {
    AmountOkExactly(orders[id], p.charge.amount, p.charge.currency);
    assert orders[id := orders[id]] == orders;
  }

  lemma SessionBuild(row: Order, e: EventId, p: Payload, id: OrderId, at: Time)
    requires SessionEvent(p)
    ensures var built := Build(e, p, Some(Found(id, row)), at);
            && (built.Ok? <==> MoneyFits(row, p))
            && (built.Ok? ==> && built.value.event == e && built.value.orderId == Some(id) && !built.value.refundOnly
                              && built.value.newStatus == Target(p)
                              && (Target(p).Some? ==> built.value.allowedFrom == AllowedFrom(Target(p).value))
                              && built.value.paymentIntent == (if p.AsyncFailed? || p.SessionExpired? || Target(p).None?
                                                              then None else SessionIntent(p.session))
                              && built.value.paidAt == (if Target(p) == Some(Paid) then Some(at) else None))
  {
    AmountOkExactly(row, p.session.amount, p.session.currency);
  }

  lemma SessionRow(orders: map<OrderId, Order>, e: EventId, p: Payload, id: OrderId, at: Time)
    requires id in orders && SessionEvent(p)
    ensures var built := Build(e, p, Some(Found(id, orders[id])), at);
            && (built.Ok? <==> MoneyFits(orders[id], p))
            && (built.Ok? && UpdateOrderFor(orders, built.value).Ok? <==> RowTakes(orders[id], p))
            && (RowTakes(orders[id], p) ==>
                  && built.value.event == e && built.value.orderId == Some(id)
                  && UpdateOrderFor(orders, built.value) == Ok(orders[id := RowAfter(orders[id], p, at)]))
  {
    SessionBuild(orders[id], e, p, id, at);
    assert orders[id := orders[id]] == orders;
  }

  /** What a lookup returns is the order the event is about. */
  lemma LookupIsMeant(orders: map<OrderId, Order>, p: Payload, pick: Option<OrderId>)
    requires SessionsUnique(orders) && Finds(orders, LookupFor(p), pick)
    ensures pick.Some? ==> Meant(orders, p, pick, pick.value)
    ensures forall id :: Meant(orders, p, pick, id) ==> pick == Some(id)
  {
  }

  /** Building from what was found and running the order half of the transaction. */
  lemma CommitExactly(orders: map<OrderId, Order>, e: EventId, p: Payload, pick: Option<OrderId>, at: Time)
    requires SessionsUnique(orders) && Handled(p) && Finds(orders, LookupFor(p), pick)
    ensures var built := Build(e, p, FoundIn(orders, pick), at);
            && (built.Ok? <==> Accepts(orders, p, pick) || TurnedAway(orders, p, pick))
            && (built.Ok? && UpdateOrderFor(orders, built.value).Ok? <==> Accepts(orders, p, pick))
            && (Accepts(orders, p, pick) ==>
                  && built.value.event == e && built.value.orderId == pick
                  && OrdersAfter(orders, UpdateOrderFor(orders, built.value).value, p, pick, at))
  {
    LookupIsMeant(orders, p, pick);
    if pick.Some? {
      if SessionEvent(p) {
        SessionRow(orders, e, p, pick.value, at);
      } else {
        RefundRow(orders, e, p, pick.value, at);
      }
    }
  }

  // ---- From claim to answer ----------------------------------------------------------

  /** What the delivery leaves when it commits. */
  ghost predicate Delivered(before: Db, after: Db, e: EventId, p: Payload, pick: Option<OrderId>, claimed: EventRow) {
    && after.now == before.now && OrdersAfter(before.orders, after.orders, p, pick, before.now)
    && e in after.events && after.events == before.events[e := after.events[e]]
    && NamesOrder(before.orders, p, pick, claimed.orderId, after.events[e].orderId)
    && after.events[e]
       == EventRow(Processed, Some(before.now), claimed.createdAt, Some(before.now), after.events[e].orderId)
  }

  /** What it leaves when the commit is turned away: the event stays in flight, and nobody
      can claim it for five minutes. */
  ghost predicate StillHeld(before: Db, after: Db, e: EventId, claimed: EventRow) {
    after == before.(events := before.events[e := claimed.(status := InFlight, startedAt := Some(before.now))])
  }

  /** What it leaves when no completion can be built: the event can be claimed at once. */
  ghost predicate GivenBack(before: Db, after: Db, e: EventId, claimed: EventRow) {
    after == before.(events := before.events[e := claimed.(status := Rejected, startedAt := Some(before.now))])
  }

  lemma FromComplete(db: Db, p: Payload, h: Hook, pick: Option<OrderId>, n: nat)
    requires h.pc.Complete? && n >= 1
    ensures Solo(db, p, h, pick, n) ==
            match CompleteTx(db, h.pc.completion)
            case Ok(after) => (after, h.(pc := Done(Acknowledged)))
            case Err(_) => (db, h.(pc := Done(ProcessingFailed)))
  {
    var c := HookChoice(false, pick);
    OneStep(db, p, h, pick, n);
    Stopped(HookDb(db, p, h, c), p, HookNext(db, p, h, c), pick, n - 1);
  }

  lemma FromReport(db: Db, p: Payload, h: Hook, pick: Option<OrderId>, n: nat)
    requires h.pc.ReportFailure? && n >= 1
    ensures Solo(db, p, h, pick, n) == (FailEvent(db, h.event), h.(pc := Done(ProcessingFailed)))
  {
    var c := HookChoice(false, pick);
    OneStep(db, p, h, pick, n);
    Stopped(HookDb(db, p, h, c), p, HookNext(db, p, h, c), pick, n - 1);
  }

  lemma FromBuild(db: Db, p: Payload, h: Hook, pick: Option<OrderId>, n: nat)
    requires h.pc.BuildCompletion? && n >= 2
    ensures var built := Build(h.event, p, FoundIn(db.orders, pick), db.now);
            Solo(db, p, h, pick, n) ==
            if built.Err? then (FailEvent(db, h.event), h.(pc := Done(ProcessingFailed)))
            else match CompleteTx(db, built.value)
                 case Ok(after) => (after, h.(pc := Done(Acknowledged)))
                 case Err(_) => (db, h.(pc := Done(ProcessingFailed)))
  {
    var built := Build(h.event, p, FoundIn(db.orders, pick), db.now);
    OneStep(db, p, h, pick, n);
    if built.Ok? {
      FromComplete(db, p, h.(pc := Complete(built.value, db.now)), pick, n - 1);
    } else {
      FromReport(db, p, h.(pc := ReportFailure), pick, n - 1);
    }
  }

  /** What a delivery that has claimed leaves, `before` being the tables at its start. */
  lemma FromClaimed(before: Db, db: Db, p: Payload, h: Hook, pick: Option<OrderId>, n: nat, claimed: EventRow)
    requires h.pc.BuildCompletion? && n >= 2
    requires SessionsUnique(db.orders) && Handled(p) && Finds(db.orders, LookupFor(p), pick)
    requires db.orders == before.orders && db.now == before.now
    requires claimed.status == InFlight && claimed.startedAt == Some(db.now)
    requires db.events == before.events[h.event := claimed]
    ensures var end := Solo(db, p, h, pick, n);
            && end.1 == h.(pc := Done(if Accepts(db.orders, p, pick) then Acknowledged else ProcessingFailed))
            && Leaves(before, end.0, h.event, p, pick, claimed)
  {
    FromBuild(db, p, h, pick, n);
    CommitExactly(db.orders, h.event, p, pick, db.now);
    if Accepts(db.orders, p, pick) {
      ClaimedCommits(before, db, h.event, p, pick, claimed);
    }
  }

  /** What a delivery that claims `claimed` leaves. */
  ghost predicate Leaves(before: Db, after: Db, e: EventId, p: Payload, pick: Option<OrderId>, claimed: EventRow) {
    if Accepts(before.orders, p, pick) then Delivered(before, after, e, p, pick, claimed)
    else if TurnedAway(before.orders, p, pick) then StillHeld(before, after, e, claimed)
    else GivenBack(before, after, e, claimed)
  }

  lemma ClaimedCommits(before: Db, db: Db, e: EventId, p: Payload, pick: Option<OrderId>, claimed: EventRow)
    requires SessionsUnique(db.orders) && Handled(p) && Finds(db.orders, LookupFor(p), pick)
    requires db.orders == before.orders && db.now == before.now && Accepts(db.orders, p, pick)
    requires db.events == before.events[e := claimed] && claimed.status == InFlight && claimed.startedAt == Some(db.now)
    ensures var c := Build(e, p, FoundIn(db.orders, pick), db.now);
            && c.Ok? && CompleteTx(db, c.value).Ok?
            && Delivered(before, CompleteTx(db, c.value).value, e, p, pick, claimed)
  {
    CommitExactly(db.orders, e, p, pick, db.now);
    LookupIsMeant(db.orders, p, pick);
    CommitEffect(db, Build(e, p, FoundIn(db.orders, pick), db.now).value);
  }

  /** The same from just before the claim. */
  lemma FromClaim(before: Db, db: Db, p: Payload, h: Hook, pick: Option<OrderId>, n: nat, row: EventRow)
    requires h.pc.TryClaim? && n >= 3
    requires SessionsUnique(db.orders) && Handled(p) && Finds(db.orders, LookupFor(p), pick) && CanClaim(db, h.event)
    requires db.orders == before.orders && db.now == before.now
    requires db.events == before.events[h.event := row]
    ensures var end := Solo(db, p, h, pick, n);
            && end.1 == h.(claimedAt := Some(db.now),
                           pc := Done(if Accepts(db.orders, p, pick) then Acknowledged else ProcessingFailed))
            && Leaves(before, end.0, h.event, p, pick, row)
  {
    var c, claimed := HookChoice(false, pick), row.(status := InFlight, startedAt := Some(db.now));
    var db1, h1 := HookDb(db, p, h, c), HookNext(db, p, h, c);
    OneStep(db, p, h, pick, n);
    FromClaimed(before, db1, p, h1, pick, n - 1, claimed);
  }

  lemma Unclaimable(db: Db, p: Payload, h: Hook, pick: Option<OrderId>, n: nat)
    requires h.pc.TryClaim? && n >= 2 && h.event in db.events && db.events[h.event].status == InFlight
    requires !CanClaim(db, h.event)
    ensures Solo(db, p, h, pick, n) == (db, h.(pc := Done(RetryLater)))
  {
    var c := HookChoice(false, pick);
    OneStep(db, p, h, pick, n);
    OneStep(db, p, HookNext(db, p, h, c), pick, n - 1);
  }

  /** The row a delivery claims: the one that is there, or a new one. */
  function RowOrNew(db: Db, e: EventId): EventRow {
    if e in db.events then db.events[e] else EventRow(Received, None, db.now, None, None)
  }

  /** How a delivery of a handled event ends, in full. */
  ghost predicate EndsAs(db: Db, p: Payload, e: EventId, pick: Option<OrderId>, end: (Db, Hook)) {
    && end.1 == Hook(e, Done(AnswerTo(db, p, e, pick)), db.now, if Recoverable(db, e) then Some(db.now) else None)
    && (if !Recoverable(db, e) then end.0 == db
        else Leaves(db, end.0, e, p, pick, RowOrNew(db, e)))
  }

  ghost function AnswerTo(db: Db, p: Payload, e: EventId, pick: Option<OrderId>): Outcome {
    if IsProcessed(db, e) then Acknowledged
    else if !Recoverable(db, e) then RetryLater
    else if Accepts(db.orders, p, pick) then Acknowledged
    else ProcessingFailed
  }

  lemma NewDelivery(db: Db, p: Payload, e: EventId, pick: Option<OrderId>)
    requires SessionsUnique(db.orders) && Handled(p) && Finds(db.orders, LookupFor(p), pick) && e !in db.events
    ensures EndsAs(db, p, e, pick, SoloRun(db, p, e, pick))
  {
    var h := Hook(e, Read, db.now, None);
    OneStep(db, p, h, pick, 5);
    OneStep(db, p, h.(pc := Insert), pick, 4);
    FromClaim(db, InsertEvent(db, e), p, h.(pc := TryClaim), pick, 3, RowOrNew(db, e));
  }

  lemma FailedDelivery(db: Db, p: Payload, e: EventId, pick: Option<OrderId>)
    requires SessionsUnique(db.orders) && Handled(p) && Finds(db.orders, LookupFor(p), pick)
    requires e in db.events && db.events[e].status == Rejected
    ensures EndsAs(db, p, e, pick, SoloRun(db, p, e, pick))
  {
    var h := Hook(e, Read, db.now, None);
    OneStep(db, p, h, pick, 5);
    assert db.events[e := db.events[e]] == db.events;
    FromClaim(db, db, p, h.(pc := TryClaim), pick, 4, db.events[e]);
  }

  lemma RunningDelivery(db: Db, p: Payload, e: EventId, pick: Option<OrderId>)
    requires SessionsUnique(db.orders) && Handled(p) && Finds(db.orders, LookupFor(p), pick)
    requires e in db.events && db.events[e].status == InFlight && db.events[e].startedAt.Some?
    ensures EndsAs(db, p, e, pick, SoloRun(db, p, e, pick))
  {
    var h := Hook(e, Read, db.now, None);
    OneStep(db, p, h, pick, 5);
    OneStep(db, p, h.(pc := TestStale(db.events[e])), pick, 4);
    assert db.events[e := db.events[e]] == db.events;
    if CanClaim(db, e) {
      FromClaim(db, db, p, h.(pc := TryClaim), pick, 3, db.events[e]);
    } else if IsStaleWebhookProcessing(db.events[e], db.now) {
      Unclaimable(db, p, h.(pc := TryClaim), pick, 3);
    }
  }

  lemma SettledDelivery(db: Db, p: Payload, e: EventId, pick: Option<OrderId>)
    requires e in db.events && db.events[e].status in {Processed, Received}
    ensures EndsAs(db, p, e, pick, SoloRun(db, p, e, pick))
  {
    OneStep(db, p, Hook(e, Read, db.now, None), pick, 5);
  }

  lemma DeliveryState(db: Db, p: Payload, e: EventId, pick: Option<OrderId>)
    requires SessionsUnique(db.orders) && Handled(p) && Finds(db.orders, LookupFor(p), pick) && RowSane(db, e)
    ensures EndsAs(db, p, e, pick, SoloRun(db, p, e, pick))
  {
    if e !in db.events {
      NewDelivery(db, p, e, pick);
    } else {
      match db.events[e].status {
        case Rejected => FailedDelivery(db, p, e, pick);
        case InFlight => RunningDelivery(db, p, e, pick);
        case _ => SettledDelivery(db, p, e, pick);
      }
    }
  }

  lemma Sane(s: State, e: EventId)
    requires EventsOk(s) && e in s.payloads && Handled(s.payloads[e])
    ensures RowSane(s.db, e)
  {
    if e in s.db.events {
      assert EventOk(s.db.orders, s.payloads[e], s.db.events[e], s.db.now);
    }
  }

  // ---- Deliveries in reachable states ------------------------------------------------

  /** Exactly the new, the failed and the stale events are claimed by one fault-free
      delivery. A `received` row is not: only its inserter can still claim it. */
  lemma RecoveryExactly(tr: seq<State>, acts: seq<Action>, i: nat, e: EventId, pick: Option<OrderId>)
    requires Run(tr, acts) && i < |tr| && e in tr[i].payloads && Handled(tr[i].payloads[e])
    requires Finds(tr[i].db.orders, LookupFor(tr[i].payloads[e]), pick)
    ensures SoloRun(tr[i].db, tr[i].payloads[e], e, pick).1.claimedAt.Some? <==> Recoverable(tr[i].db, e)
  {
    DeliveryAnsweredExactly(tr, acts, i, e, pick);
  }

  /** How one fault-free delivery of a handled event is answered, and what it leaves. It is
      acknowledged if and only if the event is processed already, or can be claimed and its
      order takes it; it fails if it can be claimed but its order does not take it; and it
      is told to retry in every other case. When it commits, the event row is processed and
      the order row written as listed. When it fails because no completion can be built, the
      event is marked failed; when it fails because the order's status turns the commit
      away, the event stays in flight. Otherwise nothing changes. */
  lemma DeliveryAnsweredExactly(tr: seq<State>, acts: seq<Action>, i: nat, e: EventId, pick: Option<OrderId>)
    requires Run(tr, acts) && i < |tr| && e in tr[i].payloads && Handled(tr[i].payloads[e])
    requires Finds(tr[i].db.orders, LookupFor(tr[i].payloads[e]), pick)
    ensures EndsAs(tr[i].db, tr[i].payloads[e], e, pick, SoloRun(tr[i].db, tr[i].payloads[e], e, pick))
  {
    RunInv(tr, acts, i);
    Sane(tr[i], e);
    DeliveryState(tr[i].db, tr[i].payloads[e], e, pick);
  }

  /** After a failed delivery. If no completion could be built, the event is marked failed
      and the next delivery is processed, at any time and whatever has happened to the
      orders, exactly if they take it then. If the commit was turned away, the event stays
      in flight, and up to and including five minutes later every delivery is told to retry;
      from then on the same holds as in the first case. */
  lemma FailedDeliveryCanBeRepeated(tr: seq<State>, acts: seq<Action>, i: nat, e: EventId,
      pick: Option<OrderId>, later: Db, again: Option<OrderId>)
    requires Run(tr, acts) && i < |tr| && e in tr[i].payloads && Handled(tr[i].payloads[e])
    requires Finds(tr[i].db.orders, LookupFor(tr[i].payloads[e]), pick)
    requires SoloRun(tr[i].db, tr[i].payloads[e], e, pick).1.pc == Done(ProcessingFailed)
    requires later.events == SoloRun(tr[i].db, tr[i].payloads[e], e, pick).0.events && SessionsUnique(later.orders)
    requires Finds(later.orders, LookupFor(tr[i].payloads[e]), again)
    ensures e in later.events && later.events[e].startedAt == Some(tr[i].db.now)
    ensures later.events[e].status
            == if TurnedAway(tr[i].db.orders, tr[i].payloads[e], pick) then InFlight else Rejected
    ensures SoloRun(later, tr[i].payloads[e], e, again).1.pc ==
            Done(if TurnedAway(tr[i].db.orders, tr[i].payloads[e], pick) && later.now <= tr[i].db.now + 300_000
                 then RetryLater
                 else if Accepts(later.orders, tr[i].payloads[e], again) then Acknowledged else ProcessingFailed)
  {
    DeliveryAnsweredExactly(tr, acts, i, e, pick);
    DeliveryState(later, tr[i].payloads[e], e, again);
  }

  /** How a delivery of any other event is answered: it is acknowledged and marked ignored,
      unless it has been recorded but not yet dealt with. */
  lemma UnhandledAnsweredExactly(tr: seq<State>, acts: seq<Action>, i: nat, e: EventId)
    requires Run(tr, acts) && i < |tr| && e in tr[i].payloads && tr[i].payloads[e].Unhandled?
    ensures var db, end := tr[i].db, SoloRun(tr[i].db, Unhandled, e, None);
            if e !in db.events then
              && end.1.pc == Done(Acknowledged)
              && end.0 == db.(events := db.events[e := EventRow(Ignored, None, db.now, Some(db.now), None)])
            else
              && end.0 == db && db.events[e].status in {Received, Ignored}
              && end.1.pc == Done(if db.events[e].status == Ignored then Acknowledged else RetryLater)
  {
    RunOrders(tr, acts, i);
    UnhandledState(tr[i], e);
  }

  lemma UnhandledState(s: State, e: EventId)
    requires EventsOk(s) && e in s.payloads && s.payloads[e].Unhandled?
    ensures var db, end := s.db, SoloRun(s.db, Unhandled, e, None);
            if e !in db.events then
              && end.1.pc == Done(Acknowledged)
              && end.0 == db.(events := db.events[e := EventRow(Ignored, None, db.now, Some(db.now), None)])
            else
              && end.0 == db && db.events[e].status in {Received, Ignored}
              && end.1.pc == Done(if db.events[e].status == Ignored then Acknowledged else RetryLater)
  {
    var db, h := s.db, Hook(e, Read, s.db.now, None);
    OneStep(db, Unhandled, h, None, 5);
    if e in db.events {
      assert EventOk(db.orders, s.payloads[e], db.events[e], db.now);
    } else {
      OneStep(db, Unhandled, h.(pc := Insert), None, 4);
      OneStep(InsertEvent(db, e), Unhandled, h.(pc := Ignore), None, 3);
    }
  }

  /** The server's staleness test and the claim disagree at exactly one instant: five
      minutes after the claim, to the tick. */
  lemma StalenessBoundary(row: EventRow, now: Time)
    ensures IsStaleWebhookProcessing(row, now) && !Claimable(row, now)
            <==> row.status == InFlight && row.startedAt.Some? && now == row.startedAt.value + 300_000
    ensures row.startedAt.Some? && row.status == InFlight && Claimable(row, now) ==> IsStaleWebhookProcessing(row, now)
  {
  }

  /** A delivery at that instant gets past the test, finds nothing to claim, and is told to
      retry; one tick later a delivery claims the event. */
  lemma BoundaryDelivery(tr: seq<State>, acts: seq<Action>, i: nat, e: EventId, pick: Option<OrderId>)
    requires Run(tr, acts) && i < |tr| && e in tr[i].payloads && Handled(tr[i].payloads[e])
    requires Finds(tr[i].db.orders, LookupFor(tr[i].payloads[e]), pick) && e in tr[i].db.events
    requires IsStaleWebhookProcessing(tr[i].db.events[e], tr[i].db.now) && !Claimable(tr[i].db.events[e], tr[i].db.now)
    ensures var end := SoloRun(tr[i].db, tr[i].payloads[e], e, pick);
            end.0 == tr[i].db && end.1.pc == Done(RetryLater) && end.1.claimedAt == None
    ensures Recoverable(tr[i].db.(now := tr[i].db.now + 1), e)
  {
    StalenessBoundary(tr[i].db.events[e], tr[i].db.now);
    DeliveryAnsweredExactly(tr, acts, i, e, pick);
  }
}
