/** The store: two tables and a clock, changed in place. Any call may fail, and a failed
    call has changed nothing. */
module Stores {
  import opened Domain
  import opened Tables
  import opened WebhookProgram

  datatype StoreError = Unavailable | Violation(cause: InsertError) | TxFailed(reason: TxError)

  class Store {
    var orders: map<OrderId, Order>
    var events: map<EventId, EventRow>
    var now: Time

    function Contents(): Db
      reads this
    {
      Db(orders, events, now)
    }

    constructor (now: Time)
      ensures Contents() == Db(map[], map[], now)
    {
      orders, events := map[], map[];
      this.now := now;
    }

    // ---- Webhook events ----------------------------------------------------------

    method GetWebhookEvent(e: EventId) returns (r: Result<Option<EventRow>, StoreError>)
      ensures r.Err? ==> r.error == Unavailable
      ensures r.Ok? ==> r.value == if e in events then Some(events[e]) else None
    {
      if * {
        return Err(Unavailable);
      }
      if e in events {
        return Ok(Some(events[e]));
      }
      return Ok(None);
    }

    method InsertWebhookEvent(e: EventId) returns (error: Option<StoreError>)
      modifies this
      ensures error == None ==> e !in old(events) && Contents() == InsertEvent(old(Contents()), e)
      ensures error != None ==> Contents() == old(Contents())
      ensures error == Some(Violation(UniqueViolation)) ==> e in events
      ensures error.Some? ==> error.value == Unavailable || error.value == Violation(UniqueViolation)
    {
      if * {
        return Some(Unavailable);
      }
      if e in events {
        return Some(Violation(UniqueViolation));
      }
      events := events[e := EventRow(Received, None, now, None, None)];
      return None;
    }

    method ClaimWebhookEvent(e: EventId) returns (r: Result<bool, StoreError>)
      modifies this
      ensures r.Err? ==> Contents() == old(Contents())
      ensures r.Ok? ==> r.value == CanClaim(old(Contents()), e) && Contents() == Claim(old(Contents()), e)
    {
      if * {
        return Err(Unavailable);
      }
      var rowsAffected := 0;
      if e in events && Claimable(events[e], now) {
        events := events[e := events[e].(status := InFlight, startedAt := Some(now))];
        rowsAffected := 1;
      }
      return Ok(rowsAffected > 0);
    }

    method FailWebhookEvent(e: EventId) returns (error: Option<StoreError>)
      modifies this
      ensures error == Some(Unavailable) ==> Contents() == old(Contents())
      ensures error != Some(Unavailable) ==> Contents() == FailEvent(old(Contents()), e)
    {
      if * {
        return Some(Unavailable);
      }
      if e !in events || events[e].status != InFlight {
        return Some(TxFailed(NotInProcessing));
      }
      events := events[e := events[e].(status := Rejected)];
      return None;
    }

    method MarkWebhookIgnored(e: EventId) returns (error: Option<StoreError>)
      modifies this
      ensures error == None ==> Contents() == IgnoreEvent(old(Contents()), e)
      ensures error != None ==> error == Some(Unavailable) && Contents() == old(Contents())
    {
      if * {
        return Some(Unavailable);
      }
      if e in events {
        events := events[e := events[e].(status := Ignored, processedAt := Some(now))];
      }
      return None;
    }

    /** The check made when an order UPDATE has run, inside the transaction. */
    static method EnsureOrderWebhookEffect(txOrders: map<OrderId, Order>, id: OrderId, target: OrderStatus,
                                           rowsAffected: nat, refundOnly: bool) returns (error: Option<StoreError>)
      ensures rowsAffected > 0 ==> error == None
      ensures rowsAffected == 0 && error == None ==> EnsureEffect(txOrders, id, target, refundOnly) == Ok(txOrders)
      ensures error.Some? && error.value.TxFailed? ==>
              EnsureEffect(txOrders, id, target, refundOnly) == Err(error.value.reason)
      ensures error.Some? ==> error.value == Unavailable || error.value.TxFailed?
    {
      if rowsAffected > 0 {
        return None;
      }
      if * {
        return Some(Unavailable);
      }
      if id !in txOrders {
        return Some(TxFailed(OrderMissing));
      }
      if WebhookOrderEffectSatisfied(txOrders[id].status, target, refundOnly) {
        return None;
      }
      return Some(TxFailed(NoEffect(txOrders[id].status)));
    }

    /** The order half of the transaction, on the transaction's own copy of the table. */
    static method UpdateOrderInTx(before: map<OrderId, Order>, c: Completion)
      returns (txOrders: map<OrderId, Order>, error: Option<StoreError>)
      ensures error == None ==> UpdateOrderFor(before, c) == Ok(txOrders)
      ensures error.Some? && error.value.TxFailed? ==> UpdateOrderFor(before, c) == Err(error.value.reason)
      ensures error.Some? ==> error.value == Unavailable || error.value.TxFailed?
    {
      txOrders, error := before, None;
      if c.refundOnly && c.orderId.Some? {
        var id, rowsAffected := c.orderId.value, 0;
        if id in txOrders && txOrders[id].status == Paid {
          txOrders, rowsAffected := txOrders[id := txOrders[id].(status := Refunded)], 1;
        }
        error := EnsureOrderWebhookEffect(txOrders, id, Refunded, rowsAffected, true);
      } else if c.newStatus.Some? && c.orderId.Some? {
        var id, rowsAffected := c.orderId.value, 0;
        if id in txOrders && txOrders[id].status in c.allowedFrom && txOrders[id].status != Paid
            && txOrders[id].status != Refunded {
          txOrders, rowsAffected := txOrders[id := Advance(txOrders[id], c, c.newStatus.value)], 1;
        }
        error := EnsureOrderWebhookEffect(txOrders, id, c.newStatus.value, rowsAffected, false);
      }
    }

    /** Runs the transaction on copies of the tables; only the commit writes them back. */
    method CompleteWebhookProcessing(c: Completion) returns (error: Option<StoreError>)
      modifies this
      ensures error == None ==> CompleteTx(old(Contents()), c) == Ok(Contents())
      ensures error != None ==> Contents() == old(Contents())
      ensures error.Some? ==> error.value == Unavailable
                              || (error.value.TxFailed? && CompleteTx(old(Contents()), c) == Err(error.value.reason))
    {
      if * {
        return Some(Unavailable);
      }
      var txOrders;
      txOrders, error := UpdateOrderInTx(orders, c);
      if error.Some? {
        return;
      }
      if * {
        return Some(Unavailable);
      }
      var txEvents, rowsAffected := events, 0;
      if c.event in txEvents && txEvents[c.event].status == InFlight {
        var row := txEvents[c.event];
        txEvents := txEvents[c.event := row.(status := Processed, processedAt := Some(now),
            orderId := Coalesce(c.orderId, row.orderId))];
        rowsAffected := 1;
      }
      if rowsAffected == 0 {
        return Some(TxFailed(NotInProcessing));
      }
      if * {
        return Some(Unavailable);
      }
      orders, events := txOrders, txEvents;
      return None;
    }

    // ---- Orders ------------------------------------------------------------------
    // Calls made for a checkout are told whether the request's context is over: then they fail.

    method GetOrderByIdempotencyKey(over: bool, key: string) returns (r: Result<Option<Found>, StoreError>)
      ensures over ==> r == Err(Unavailable)
      ensures r.Ok? ==> FindsByKey(orders, key, PickOf(r.value)) && r.value == FoundIn(orders, PickOf(r.value))
    {
      if over {
        return Err(Unavailable);
      }
      if * {
        return Err(Unavailable);
      }
      if id :| id in orders && orders[id].key == Some(key) {
        return Ok(Some(Found(id, orders[id])));
      }
      return Ok(None);
    }

    method GetOrderBySessionID(sessionId: string) returns (r: Result<Option<Found>, StoreError>)
      ensures r.Ok? ==>
                FindsBySession(orders, sessionId, PickOf(r.value)) && r.value == FoundIn(orders, PickOf(r.value))
    {
      if * {
        return Err(Unavailable);
      }
      if id :| id in orders && orders[id].sessionId == Some(sessionId) {
        return Ok(Some(Found(id, orders[id])));
      }
      return Ok(None);
    }

    method GetOrderByPaymentIntentID(intent: string) returns (r: Result<Option<Found>, StoreError>)
      ensures r.Ok? ==> FindsByIntent(orders, intent, PickOf(r.value)) && r.value == FoundIn(orders, PickOf(r.value))
    {
      if * {
        return Err(Unavailable);
      }
      if id :| id in orders && orders[id].paymentIntent == Some(intent) {
        return Ok(Some(Found(id, orders[id])));
      }
      return Ok(None);
    }

    method InsertOrderWithItems(over: bool, id: OrderId, row: Order) returns (error: Option<StoreError>)
      modifies this
      ensures over ==> error == Some(Unavailable)
      ensures error == None ==> CreateOrderWithItems(old(Contents()), id, row) == Ok(Contents())
      ensures error != None ==> Contents() == old(Contents())
      ensures error.Some? ==> error.value == Unavailable
                              || (error.value.Violation?
                                    && CreateOrderWithItems(old(Contents()), id, row) == Err(error.value.cause))
    {
      if over {
        return Some(Unavailable);
      }
      if * {
        return Some(Unavailable);
      }
      if row.total <= 0 {
        return Some(Violation(CheckViolation));
      }
      if Collides(orders, id, row) {
        return Some(Violation(UniqueViolation));
      }
      var index := 0;
      while index < |row.lines|
        invariant 0 <= index <= |row.lines|
        invariant forall i :: 0 <= i < index ==>
                    row.lines[i].quantity > 0 && row.lines[i].unit > 0 && row.lines[i].lineTotal > 0
      {
        if * {
          return Some(Unavailable);
        }
        var line := row.lines[index];
        if line.quantity <= 0 || line.unit <= 0 || line.lineTotal <= 0 {
          return Some(Violation(CheckViolation));
        }
        index := index + 1;
      }
      orders := orders[id := row];
      return None;
    }

    method StoreOrderSession(over: bool, id: OrderId, sessionId: string, url: string, clientSecret: string)
        returns (error: Option<StoreError>)
      modifies this
      ensures over ==> error == Some(Unavailable)
      ensures error == None ==> !SessionTaken(old(orders), id, sessionId)
                                && Contents() == UpdateOrderSession(old(Contents()), id, sessionId, url, clientSecret)
      ensures error != None ==> Contents() == old(Contents())
      ensures error == Some(Violation(UniqueViolation)) ==> SessionTaken(orders, id, sessionId)
      ensures error.Some? ==> error.value == Unavailable || error.value == Violation(UniqueViolation)
    {
      if over {
        return Some(Unavailable);
      }
      if * {
        return Some(Unavailable);
      }
      if SessionTaken(orders, id, sessionId) {
        return Some(Violation(UniqueViolation));
      }
      if id in orders {
        orders := orders[id := orders[id].(
          sessionId := Some(sessionId), url := NullIfEmpty(url), clientSecret := NullIfEmpty(clientSecret))];
      }
      return None;
    }

    method UpdateOrderAccessTokenHash(over: bool, id: OrderId, token: string) returns (error: Option<StoreError>)
      modifies this
      ensures over ==> error == Some(Unavailable)
      ensures error == None ==> id in old(orders) && Contents() == UpdateOrderToken(old(Contents()), id, token)
      ensures error != None ==> Contents() == old(Contents())
      ensures error.Some? && error.value.TxFailed? ==> id !in orders
      ensures error.Some? ==> error.value == Unavailable || error.value.TxFailed?
    {
      if over {
        return Some(Unavailable);
      }
      if * {
        return Some(Unavailable);
      }
      if id !in orders {
        return Some(TxFailed(OrderMissing));
      }
      orders := orders[id := orders[id].(tokenHash := Some(token))];
      return None;
    }

    method ClearOrderIdempotencyKey(over: bool, id: OrderId) returns (error: Option<StoreError>)
      modifies this
      ensures over ==> error == Some(Unavailable)
      ensures error == None ==> Contents() == ClearKey(old(Contents()), id)
      ensures error != None ==> Contents() == old(Contents())
    {
      if over {
        return Some(Unavailable);
      }
      if * {
        return Some(Unavailable);
      }
      if id in orders && orders[id].status == Canceled {
        orders := orders[id := orders[id].(key := None)];
      }
      return None;
    }

    method CancelOrderRow(over: bool, id: OrderId, reason: string) returns (error: Option<StoreError>)
      modifies this
      ensures over ==> error == Some(Unavailable)
      ensures error == None ==> Contents() == CancelOrder(old(Contents()), id, reason)
      ensures error != None ==> Contents() == old(Contents())
    {
      if over {
        return Some(Unavailable);
      }
      if * {
        return Some(Unavailable);
      }
      if id in orders {
        orders := orders[id := orders[id].(
          status := Canceled, key := None, metadata := orders[id].metadata[REASON_KEY := reason])];
      }
      return None;
    }

    method SweepStalePendingOrders() returns (r: Result<nat, StoreError>)
      modifies this
      ensures r.Err? ==> Contents() == old(Contents())
      ensures r.Ok? ==> Contents() == CancelStalePendingOrders(old(Contents()))
                        && r.value == |set id | id in old(orders) && StalePending(old(orders)[id], old(now))|
    {
      if * {
        return Err(Unavailable);
      }
      var stale := set id | id in orders && StalePending(orders[id], now);
      orders := map id | id in orders :: Swept(orders[id], now);
      return Ok(|stale|);
    }
  }

  function PickOf(found: Option<Found>): Option<OrderId> {
    if found.Some? then Some(found.value.id) else None
  }
}
