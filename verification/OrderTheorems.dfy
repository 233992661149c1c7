/** What holds of orders over whole runs of concurrent checkouts, sweeps and webhooks. */
module OrderTheorems {
  import opened Domain
  import opened Pricing
  import opened Tables
  import opened WebhookProgram
  import opened Protocol
  import opened Rows
  import opened Invariants
  import opened Moving
  import opened Runs

  // ---- One payment per idempotency key ---------------------------------------------

  /** The key an order was created with; it survives the release of the key column. */
  ghost predicate CreatedWith(s: State, id: OrderId, key: string) {
    id in s.db.orders && id in s.born && s.born[id].row.key == Some(key)
  }

  /** An order that is not canceled still holds the key it was created with. */
  lemma LiveHolder(s: State, id: OrderId, key: string)
    requires OrdersOk(s) && CreatedWith(s, id, key) && s.db.orders[id].status != Canceled
    ensures s.db.orders[id].key == Some(key)
  {
    assert OrderOk(s.born[id], s.db.orders[id]);
  }

  /** In every reachable state at most one order created with a key is not canceled. */
  lemma OneLiveOrderPerKey(tr: seq<State>, acts: seq<Action>, i: nat, key: string, a: OrderId, b: OrderId)
    requires Run(tr, acts) && i < |tr|
    requires CreatedWith(tr[i], a, key) && CreatedWith(tr[i], b, key)
    requires tr[i].db.orders[a].status != Canceled && tr[i].db.orders[b].status != Canceled
    ensures a == b
  {
    RunInv(tr, acts, i);
    LiveHolder(tr[i], a, key);
    LiveHolder(tr[i], b, key);
  }

  /** However many checkouts share a key, and whatever fails, only one of the orders ever
      created with it ever becomes paid. */
  lemma AtMostOnePaidPerKey(tr: seq<State>, acts: seq<Action>, i: nat, j: nat, key: string, a: OrderId, b: OrderId)
    requires Run(tr, acts) && i < |tr| && j < |tr|
    requires CreatedWith(tr[i], a, key) && CreatedWith(tr[j], b, key)
    requires Settled(tr[i].db.orders[a].status) && Settled(tr[j].db.orders[b].status)
    ensures a == b
  {
    if i <= j {
      OrderEvolves(tr, acts, i, j, a);
      OneLiveOrderPerKey(tr, acts, j, key, a, b);
    } else {
      OrderEvolves(tr, acts, j, i, b);
      OneLiveOrderPerKey(tr, acts, i, key, a, b);
    }
  }

  // ---- Cancellation is safe --------------------------------------------------------

  /** Neither statement that cancels checks what it overwrites, or not enough to matter
      here: yet a status set by a webhook is never lost to a cancellation, and canceled
      is final. */
  lemma WebhookStatusNeverCanceled(tr: seq<State>, acts: seq<Action>, i: nat, j: nat, id: OrderId)
    requires Run(tr, acts) && i <= j < |tr| && id in tr[i].db.orders
    ensures id in tr[j].db.orders
    ensures tr[i].db.orders[id].status !in {Pending, Canceled} ==> tr[j].db.orders[id].status != Canceled
    ensures tr[i].db.orders[id].status == Canceled ==> tr[j].db.orders[id].status == Canceled
  {
    OrderEvolves(tr, acts, i, j, id);
  }

  /** A checkout about to cancel still owns an order no webhook can have reached: the row
      has no session, and is pending or already canceled. */
  lemma CancelOnlyUntouchedOrders(tr: seq<State>, acts: seq<Action>, i: nat, t: Tid)
    requires Run(tr, acts) && i < |tr| && t in tr[i].carts && tr[i].carts[t].pc.Cancel?
    ensures var id := tr[i].carts[t].pc.draft.id;
            && id in tr[i].db.orders && id in tr[i].born && tr[i].born[id].creator == t
            && tr[i].db.orders[id].sessionId == None
            && tr[i].db.orders[id].status in {Pending, Canceled}
  {
    RunInv(tr, acts, i);
    var s := tr[i];
    assert CartOk(s, t, s.carts[t]);
    var id := s.carts[t].pc.draft.id;
    assert OrderOk(s.born[id], s.db.orders[id]);
  }

  /** No session stored means no webhook effect, in every reachable state. */
  lemma NoSessionNoEffect(tr: seq<State>, acts: seq<Action>, i: nat, id: OrderId)
    requires Run(tr, acts) && i < |tr| && id in tr[i].db.orders && tr[i].db.orders[id].sessionId == None
    ensures tr[i].db.orders[id].status in {Pending, Canceled}
  {
    RunInv(tr, acts, i);
    assert OrderOk(tr[i].born[id], tr[i].db.orders[id]);
  }

  // ---- Statuses climb --------------------------------------------------------------

  /** How often an order's status changed in the first `n` steps. */
  ghost function StatusChanges(tr: seq<State>, id: OrderId, n: nat): nat
    requires n < |tr|
  {
    if n == 0 then 0
    else StatusChanges(tr, id, n - 1) +
         (if id in tr[n - 1].db.orders && id in tr[n].db.orders
             && tr[n - 1].db.orders[id].status != tr[n].db.orders[id].status then 1 else 0)
  }

  /** Each single step keeps a status or takes one edge of the life cycle. */
  lemma StatusEdges(tr: seq<State>, acts: seq<Action>, i: nat, id: OrderId)
    requires Run(tr, acts) && i < |acts| && id in tr[i].db.orders
    ensures id in tr[i + 1].db.orders
    ensures var a, b := tr[i].db.orders[id].status, tr[i + 1].db.orders[id].status;
            a == b || (Edge(a, b) && Rank(a) < Rank(b))
  {
    RunMove(tr, acts, i);
    RowMovesClimb(tr[i].db.orders[id], tr[i + 1].db.orders[id],
                  Actor(acts[i]) == Some(tr[i].born[id].creator), tr[i].db.now);
  }

  /** Every change follows an edge of the life cycle and climbs, so a status changes at
      most three times in any run. */
  lemma {:induction false} StatusChangesBounded(tr: seq<State>, acts: seq<Action>, id: OrderId, n: nat)
    requires Run(tr, acts) && n < |tr|
    ensures id in tr[n].db.orders ==> StatusChanges(tr, id, n) <= Rank(tr[n].db.orders[id].status) <= 3
    ensures id !in tr[n].db.orders ==> StatusChanges(tr, id, n) == 0
  {
    if n > 0 {
      StatusChangesBounded(tr, acts, id, n - 1);
      if id in tr[n - 1].db.orders {
        StatusEdges(tr, acts, n - 1, id);
      }
    }
  }

  /** The payment stamp is there exactly while an order is paid or refunded, and once
      written it is never rewritten. */
  lemma PaidStampWrittenOnce(tr: seq<State>, acts: seq<Action>, i: nat, j: nat, id: OrderId)
    requires Run(tr, acts) && i <= j < |tr| && id in tr[i].db.orders
    ensures tr[i].db.orders[id].paidAt.Some? <==> Settled(tr[i].db.orders[id].status)
    ensures id in tr[j].db.orders
    ensures tr[i].db.orders[id].paidAt.Some? ==> tr[j].db.orders[id].paidAt == tr[i].db.orders[id].paidAt
  {
    RunInv(tr, acts, i);
    assert OrderOk(tr[i].born[id], tr[i].db.orders[id]);
    OrderEvolves(tr, acts, i, j, id);
  }

  // ---- Provenance ------------------------------------------------------------------

  /** `e` is a processed paid-type event for the order's own session, amount and currency. */
  ghost predicate PaidBy(s: State, e: EventId, id: OrderId) {
    && e in s.db.events && e in s.payloads && id in s.db.orders
    && s.db.events[e].status == Processed && s.db.events[e].orderId == Some(id)
    && (s.payloads[e].SessionCompleted? || s.payloads[e].AsyncSucceeded?)
    && s.db.orders[id].sessionId == Some(s.payloads[e].session.id)
    && MoneyAgrees(s.db.orders[id], s.payloads[e].session.amount, s.payloads[e].session.currency)
    && (s.payloads[e].SessionCompleted? ==>
          s.payloads[e].session.complete && s.payloads[e].session.payment == SessionPaid)
  }

  /** `e` is a processed full refund of the order's amount on its payment intent. */
  ghost predicate RefundedBy(s: State, e: EventId, id: OrderId) {
    && e in s.db.events && e in s.payloads && id in s.db.orders
    && s.db.events[e].status == Processed && s.db.events[e].orderId == Some(id)
    && s.payloads[e].ChargeRefunded? && s.payloads[e].charge.refunded
    && s.payloads[e].charge.intent == s.db.orders[id].paymentIntent
    && MoneyAgrees(s.db.orders[id], s.payloads[e].charge.amount, s.payloads[e].charge.currency)
  }

  lemma PaidCause(s: State, e: EventId, id: OrderId)
    requires Cause(s, e, id, Paid)
    ensures PaidBy(s, e, id)
  {
    AmountOkExactly(s.db.orders[id], s.payloads[e].session.amount, s.payloads[e].session.currency);
  }

  lemma RefundCause(s: State, e: EventId, id: OrderId)
    requires Cause(s, e, id, Refunded)
    ensures RefundedBy(s, e, id)
  {
    AmountOkExactly(s.db.orders[id], s.payloads[e].charge.amount, s.payloads[e].charge.currency);
  }

  lemma CausesGiveProvenance(s: State, id: OrderId)
    requires id in s.db.orders && CauseOk(s, id, s.db.orders[id].status)
    ensures Settled(s.db.orders[id].status) ==> exists e :: PaidBy(s, e, id)
    ensures s.db.orders[id].status == Refunded ==> exists e :: RefundedBy(s, e, id)
  {
    if Settled(s.db.orders[id].status) {
      var e :| Cause(s, e, id, Paid);
      PaidCause(s, e, id);
    }
    if s.db.orders[id].status == Refunded {
      var e :| Cause(s, e, id, Refunded);
      RefundCause(s, e, id);
    }
  }

  /** No order is paid or refunded without processed events that say so, for its own
      session and for exactly its amount. */
  lemma MoneyHasProvenance(tr: seq<State>, acts: seq<Action>, i: nat, id: OrderId)
    requires Run(tr, acts) && i < |tr| && id in tr[i].db.orders
    ensures Settled(tr[i].db.orders[id].status) ==> exists e :: PaidBy(tr[i], e, id)
    ensures tr[i].db.orders[id].status == Refunded ==> exists e :: RefundedBy(tr[i], e, id)
  {
    RunInv(tr, acts, i);
    CausesGiveProvenance(tr[i], id);
  }

  /** If Stripe only ever reports, for a session, the exact sum of the line items of the
      order that holds it, then on every paid order the 32-bit total did not wrap. */
  lemma PaidTotalsAreExact(tr: seq<State>, acts: seq<Action>, i: nat, id: OrderId)
    requires Run(tr, acts) && i < |tr| && id in tr[i].db.orders && Settled(tr[i].db.orders[id].status)
    requires forall e ::
               e in tr[i].payloads && (tr[i].payloads[e].SessionCompleted? || tr[i].payloads[e].AsyncSucceeded?)
               && tr[i].db.orders[id].sessionId == Some(tr[i].payloads[e].session.id)
               ==> tr[i].payloads[e].session.amount == ExactTotal(tr[i].db.orders[id].lines)
    ensures tr[i].db.orders[id].total == ExactTotal(tr[i].db.orders[id].lines)
    ensures 0 < ExactTotal(tr[i].db.orders[id].lines) <= MAX_INT32
  {
    MoneyHasProvenance(tr, acts, i, id);
    var e :| PaidBy(tr[i], e, id);
    RunInv(tr, acts, i);
    assert OrderOk(tr[i].born[id], tr[i].db.orders[id]);
    assert PricedOk(tr[i].born[id].row.total, tr[i].born[id].row.lines);
    NoNetWrapWhenAmountsAgree(tr[i].born[id].row.lines);
  }
}
