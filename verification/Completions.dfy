/** Why acting on a stale read is harmless: a completion keeps its meaning while the row it
    was built from evolves. */
module Completions {
  import opened Domain
  import opened Tables
  import opened WebhookProgram
  import opened Rows
  import opened Invariants

  lemma ConcernsStable(a: Order, b: Order, p: Payload)
    requires Concerns(a, p) && Evolves(a, b)
    ensures Concerns(b, p)
  {
  }

  lemma AgreesStable(a: Order, b: Order, p: Payload)
    requires Agrees(a, p) && Evolves(a, b)
    ensures Agrees(b, p)
  {
  }

  /** Building from an evolved row gives the same completion, unless it is a refund. */
  lemma BuildStable(e: EventId, p: Payload, id: OrderId, a: Order, b: Order, at: Time)
    requires Evolves(a, b) && !p.ChargeRefunded?
    ensures Build(e, p, Some(Found(id, a)), at) == Build(e, p, Some(Found(id, b)), at)
  {
  }

  lemma RebuildsStable(e: EventId, p: Payload, id: OrderId, a: Order, b: Order, c: Completion, at: Time)
    requires Evolves(a, b) && Rebuilds(e, p, id, a, c, at)
    ensures Rebuilds(e, p, id, b, c, at)
  {
    if !p.ChargeRefunded? {
      BuildStable(e, p, id, a, b, at);
    }
  }

  lemma CompletionStable(before: map<OrderId, Order>, after: map<OrderId, Order>,
                         e: EventId, p: Payload, c: Completion, at: Time)
    requires CompletionOk(before, e, p, c, at)
    requires forall id :: id in before ==> id in after && Evolves(before[id], after[id])
    ensures CompletionOk(after, e, p, c, at)
  {
    if c.orderId.Some? {
      var id := c.orderId.value;
      ConcernsStable(before[id], after[id], p);
      RebuildsStable(e, p, id, before[id], after[id], c, at);
    }
  }

  /** A freshly built completion is sound. */
  lemma BuildOk(db: Db, e: EventId, p: Payload, pick: Option<OrderId>, at: Time)
    requires Finds(db.orders, LookupFor(p), pick)
    requires Build(e, p, FoundIn(db.orders, pick), at).Ok?
    ensures CompletionOk(db.orders, e, p, Build(e, p, FoundIn(db.orders, pick), at).value, at)
  {
  }

  /** What a sound completion says. */
  lemma CompletionFacts(orders: map<OrderId, Order>, e: EventId, p: Payload, c: Completion, at: Time)
    requires CompletionOk(orders, e, p, c, at)
    ensures c.event == e
    ensures Target(p).Some? ==> c.orderId.Some?
    ensures c.refundOnly ==> c.newStatus.None? && c.orderId.Some? && Target(p) == Some(Refunded)
                             && Settled(orders[c.orderId.value].status)
    ensures c.newStatus.Some? ==>
              && !c.refundOnly && c.orderId.Some? && Target(p) == c.newStatus
              && c.newStatus.value in {Paid, Processing, Failed, Expired}
              && c.allowedFrom == AllowedFrom(c.newStatus.value)
              && (c.paidAt.Some? <==> c.newStatus == Some(Paid))
              && orders[c.orderId.value].sessionId.Some?
    ensures !c.refundOnly && c.newStatus.None? && Target(p).Some? ==>
              Target(p) == Some(Refunded) && orders[c.orderId.value].status == Refunded
    ensures c.refundOnly || c.newStatus.Some? ==> Agrees(orders[c.orderId.value], p)
  {
  }
}
