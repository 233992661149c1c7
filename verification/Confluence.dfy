/** When the order of delivery matters: events about one session, delivered in any order and
    with any repetition, to an order that is pending and whose amount they match. */
module Confluence {
  import opened Domain
  import opened Tables
  import opened WebhookProgram
  import opened Invariants
  import opened Completions

  /** The four statuses a session event can ask for. */
  predicate SessionTarget(target: OrderStatus) {
    target in {Processing, Paid, Failed, Expired}
  }

  /** The status after one delivery: advanced if allowed, otherwise as it was, whether the
      delivery was accepted as a duplicate or turned away. */
  function Settle(status: OrderStatus, target: OrderStatus): OrderStatus {
    if Advances(status, target) then target else status
  }

  /** The completing transaction does to an order exactly what `Settle` says. */
  lemma DeliverySettles(orders: map<OrderId, Order>, e: EventId, p: Payload, c: Completion, at: Time)
    requires CompletionOk(orders, e, p, c, at) && c.newStatus.Some?
    ensures var id, after := c.orderId.value, UpdateOrderFor(orders, c);
            && SessionTarget(c.newStatus.value) && id in orders
            && (after.Ok? ==> id in after.value)
            && (if after.Ok? then after.value[id] else orders[id]).status
                  == Settle(orders[id].status, c.newStatus.value)
            && (after.Ok? <==> Receives(orders[id].status, c.newStatus.value))
  {
    CompletionFacts(orders, e, p, c, at);
    EffectSatisfiedExactly(orders[c.orderId.value].status, c.newStatus.value);
  }

  /** The status of a pending order after a sequence of deliveries. */
  function Final(targets: seq<OrderStatus>): OrderStatus {
    if targets == [] then Pending
    else Settle(Final(targets[..|targets| - 1]), targets[|targets| - 1])
  }

  /** Two kinds of event whose order of arrival decides. */
  predicate Conflicting(kinds: set<OrderStatus>) {
    || (Paid in kinds && Failed in kinds) || (Paid in kinds && Expired in kinds)
    || (Failed in kinds && Expired in kinds) || (Processing in kinds && Expired in kinds)
  }

  /** What a set of deliveries without a clash adds up to. */
  function Winner(kinds: set<OrderStatus>): OrderStatus {
    if Paid in kinds then Paid
    else if Failed in kinds then Failed
    else if Expired in kinds then Expired
    else if Processing in kinds then Processing
    else Pending
  }

  function Kinds(targets: seq<OrderStatus>): set<OrderStatus> {
    set x | x in targets
  }

  /** The sequence delivers events of exactly these kinds, in some order, any number of times. */
  ghost predicate Delivers(targets: seq<OrderStatus>, kinds: set<OrderStatus>) {
    Kinds(targets) == kinds
  }

  lemma {:induction false} CleanDeliveriesAgree(targets: seq<OrderStatus>)
    requires forall x :: x in targets ==> SessionTarget(x)
    requires !Conflicting(Kinds(targets))
    ensures Final(targets) == Winner(Kinds(targets))
  {
    if targets != [] {
      var init, x := targets[..|targets| - 1], targets[|targets| - 1];
      assert targets == init + [x];
      assert Kinds(targets) == Kinds(init) + {x};
      CleanDeliveriesAgree(init);
    }
  }

  /** Every kind once. */
  function Listing(kinds: set<OrderStatus>): seq<OrderStatus> {
    (if Paid in kinds then [Paid] else []) + (if Failed in kinds then [Failed] else [])
    + (if Expired in kinds then [Expired] else []) + (if Processing in kinds then [Processing] else [])
  }

  lemma {:induction false} FirstVerdictStays(x: OrderStatus, rest: seq<OrderStatus>)
    requires x in {Paid, Failed, Expired}
    requires forall y :: y in rest ==> SessionTarget(y)
    ensures Final([x] + rest) == x
  {
    var all := [x] + rest;
    if rest == [] {
      assert all[..0] == [];
    } else {
      var n := |rest| - 1;
      assert all[..|all| - 1] == [x] + rest[..n];
      assert rest[n] in rest;
      FirstVerdictStays(x, rest[..n]);
    }
  }

  lemma StartsWith(x: OrderStatus, kinds: set<OrderStatus>)
    requires x in kinds && forall y :: y in kinds ==> SessionTarget(y)
    ensures Delivers([x] + Listing(kinds), kinds)
    ensures forall y :: y in Listing(kinds) ==> SessionTarget(y)
  {
    var l := Listing(kinds);
    forall y
      ensures y in l <==> y in kinds
    {
    }
    assert Kinds([x] + l) == {x} + Kinds(l);
  }

  lemma ProcessingThenExpired()
    ensures Final([Processing, Expired]) == Processing && Final([Expired, Processing]) == Expired
  {
    assert [Processing, Expired][..1] == [Processing] && [Processing][..0] == [];
    assert [Expired, Processing][..1] == [Expired] && [Expired][..0] == [];
  }

  lemma ConflictMatters(kinds: set<OrderStatus>) returns (a: seq<OrderStatus>, b: seq<OrderStatus>)
    requires Conflicting(kinds) && forall y :: y in kinds ==> SessionTarget(y)
    ensures Delivers(a, kinds) && Delivers(b, kinds) && Final(a) != Final(b)
  {
    var x := if Paid in kinds then Paid else if Failed in kinds then Failed else Expired;
    var y := if Expired in kinds then Expired else Failed;
    if x != y {
      StartsWith(x, kinds);
      StartsWith(y, kinds);
      FirstVerdictStays(x, Listing(kinds));
      FirstVerdictStays(y, Listing(kinds));
      a, b := [x] + Listing(kinds), [y] + Listing(kinds);
    } else {
      assert kinds == {Processing, Expired};
      ProcessingThenExpired();
      a, b := [Processing, Expired], [Expired, Processing];
    }
  }

  /** The final status depends only on which kinds of event occurred exactly when no two of
      the kinds clash: so for completed-unpaid with paid, completed-unpaid with failed, and
      expired alone, but for no set beyond these. */
  lemma ConfluentIff(kinds: set<OrderStatus>)
    requires forall y :: y in kinds ==> SessionTarget(y)
    ensures (forall a, b :: Delivers(a, kinds) && Delivers(b, kinds) ==> Final(a) == Final(b))
            <==> !Conflicting(kinds)
    ensures !Conflicting(kinds) ==> forall a :: Delivers(a, kinds) ==> Final(a) == Winner(kinds)
    ensures !Conflicting(kinds) <==> kinds <= {Processing, Paid} || kinds <= {Processing, Failed} || kinds <= {Expired}
  {
    if Conflicting(kinds) {
      var a, b := ConflictMatters(kinds);
    } else {
      forall a | Delivers(a, kinds)
        ensures Final(a) == Winner(kinds)
      {
        forall x | x in a
          ensures SessionTarget(x)
        {
          assert x in Kinds(a);
        }
        CleanDeliveriesAgree(a);
      }
    }
  }

  // ---- The same of deliveries to an order row ----------------------------------------

  /** One delivery that reached the order: which event, what it carries, when it was built. */
  datatype Delivery = Delivery(event: EventId, payload: Payload, at: Time)

  /** Build the completion from the row as it is, then run the order half of the
      transaction; if either fails, the row stays as it is. */
  function DeliverOne(orders: map<OrderId, Order>, id: OrderId, d: Delivery): (after: map<OrderId, Order>)
    requires id in orders
    ensures id in after
  {
    match Build(d.event, d.payload, Some(Found(id, orders[id])), d.at)
    case Err(_) => orders
    case Ok(c) => match UpdateOrderFor(orders, c) case Ok(after) => after case Err(_) => orders
  }

  function DeliverAll(orders: map<OrderId, Order>, id: OrderId, ds: seq<Delivery>): (after: map<OrderId, Order>)
    requires id in orders
    ensures id in after
  {
    if ds == [] then orders
    else DeliverOne(DeliverAll(orders, id, ds[..|ds| - 1]), id, ds[|ds| - 1])
  }

  /** An event about this order's session, for its amount, that asks for a status. */
  predicate About(row: Order, p: Payload) {
    && Target(p).Some? && !p.ChargeRefunded?
    && row.sessionId == Some(p.session.id) && Agrees(row, p)
  }

  predicate AllAbout(row: Order, ds: seq<Delivery>) {
    forall i :: 0 <= i < |ds| ==> About(row, ds[i].payload)
  }

  /** The statuses the deliveries ask for. */
  function Targets(ds: seq<Delivery>): seq<OrderStatus> {
    seq(|ds|, i requires 0 <= i < |ds| => Target(ds[i].payload).GetOr(Pending))
  }

  /** The parts of a row a session event is checked against. */
  predicate SameMoney(a: Order, b: Order) {
    a.sessionId == b.sessionId && a.total == b.total && a.currency == b.currency
  }

  ghost predicate OthersKept(before: map<OrderId, Order>, after: map<OrderId, Order>, id: OrderId) {
    forall other :: other in before && other != id ==> other in after && after[other] == before[other]
  }

  lemma AboutTarget(row: Order, p: Payload)
    requires About(row, p)
    ensures SessionTarget(Target(p).value)
  {
  }

  /** Such an event is never turned away while its completion is built. */
  lemma BuildsFor(row: Order, id: OrderId, d: Delivery)
    requires About(row, d.payload)
    ensures var built := Build(d.event, d.payload, Some(Found(id, row)), d.at);
            && built.Ok? && built.value.orderId == Some(id) && !built.value.refundOnly
            && built.value.newStatus == Target(d.payload)
            && built.value.allowedFrom == AllowedFrom(Target(d.payload).value)
  {
  }

  /** Everything one delivery writes: an accepted one sets the status, keeps or takes over
      the payment intent, and stamps a payment; any other writes nothing. */
  lemma DeliveryWrites(orders: map<OrderId, Order>, id: OrderId, d: Delivery)
    requires id in orders && About(orders[id], d.payload)
    ensures var row, target, intent := orders[id], Target(d.payload).value, d.payload.session.intent;
            DeliverOne(orders, id, d) ==
            if !Advances(row.status, target) then orders
            else orders[id := row.(
              status := target,
              paymentIntent := if target in {Paid, Processing} && intent.GetOr("") != "" then intent
                  else row.paymentIntent,
              paidAt := if target == Paid then Some(d.at) else row.paidAt)]
  {
    BuildsFor(orders[id], id, d);
    AboutTarget(orders[id], d.payload);
  }

  lemma OneDeliverySettles(orders: map<OrderId, Order>, id: OrderId, d: Delivery)
    requires id in orders && About(orders[id], d.payload)
    ensures var after := DeliverOne(orders, id, d);
            && after[id].status == Settle(orders[id].status, Target(d.payload).value)
            && SameMoney(orders[id], after[id]) && OthersKept(orders, after, id)
  {
    DeliveryWrites(orders, id, d);
    AboutTarget(orders[id], d.payload);
  }

  /** Deliveries drive the real row exactly along `Final`, and touch no other order. */
  lemma {:induction false} DeliveriesFollowFinal(orders: map<OrderId, Order>, id: OrderId, ds: seq<Delivery>)
    requires id in orders && orders[id].status == Pending && AllAbout(orders[id], ds)
    ensures var after := DeliverAll(orders, id, ds);
            && after[id].status == Final(Targets(ds))
            && SameMoney(orders[id], after[id]) && OthersKept(orders, after, id)
  {
    if ds != [] {
      var n := |ds| - 1;
      DeliveriesFollowFinal(orders, id, ds[..n]);
      OneDeliverySettles(DeliverAll(orders, id, ds[..n]), id, ds[n]);
      assert Targets(ds)[..n] == Targets(ds[..n]);
    }
  }

  lemma TargetsAreSessionTargets(row: Order, ds: seq<Delivery>)
    requires AllAbout(row, ds)
    ensures forall x :: x in Targets(ds) ==> SessionTarget(x)
  {
    forall i | 0 <= i < |ds|
      ensures SessionTarget(Targets(ds)[i])
    {
      AboutTarget(row, ds[i].payload);
    }
  }

  /** A pending order that has seen any number of session events, in any order and with any
      repetition, has the status their kinds add up to, unless two of the kinds clash. */
  lemma DeliveriesAreConfluent(orders: map<OrderId, Order>, id: OrderId, ds: seq<Delivery>)
    requires id in orders && orders[id].status == Pending && AllAbout(orders[id], ds)
    requires !Conflicting(Kinds(Targets(ds)))
    ensures DeliverAll(orders, id, ds)[id].status == Winner(Kinds(Targets(ds)))
  {
    DeliveriesFollowFinal(orders, id, ds);
    TargetsAreSessionTargets(orders[id], ds);
    CleanDeliveriesAgree(Targets(ds));
  }

  /** Some event about the order asks for each of these statuses. */
  ghost predicate Deliverable(row: Order, kinds: set<OrderStatus>) {
    forall x :: x in kinds ==> Asks(row, x)
  }

  ghost predicate Asks(row: Order, x: OrderStatus) {
    exists p :: About(row, p) && Target(p) == Some(x)
  }

  /** Deliveries that ask for the given statuses, one after the other. */
  lemma {:induction false} DeliveriesFor(row: Order, ts: seq<OrderStatus>) returns (ds: seq<Delivery>)
    requires forall i :: 0 <= i < |ts| ==> Asks(row, ts[i])
    ensures AllAbout(row, ds) && Targets(ds) == ts
  {
    ds := [];
    if ts != [] {
      var n := |ts| - 1;
      var init := DeliveriesFor(row, ts[..n]);
      var p :| About(row, p) && Target(p) == Some(ts[n]);
      ds := init + [Delivery("", p, 0)];
      assert ts == ts[..n] + [ts[n]];
      assert Targets(ds) == Targets(init) + [ts[n]];
    }
  }

  lemma DeliveriesOf(orders: map<OrderId, Order>, id: OrderId, ts: seq<OrderStatus>, kinds: set<OrderStatus>)
    returns (ds: seq<Delivery>)
    requires id in orders && orders[id].status == Pending && Deliverable(orders[id], kinds) && Delivers(ts, kinds)
    ensures AllAbout(orders[id], ds) && Delivers(Targets(ds), kinds)
    ensures DeliverAll(orders, id, ds)[id].status == Final(ts)
  {
    forall i | 0 <= i < |ts|
      ensures Asks(orders[id], ts[i])
    {
      assert ts[i] in Kinds(ts);
    }
    ds := DeliveriesFor(orders[id], ts);
    DeliveriesFollowFinal(orders, id, ds);
  }

  /** For a pending order and any kinds of event there can be about it: the final status of
      its row depends only on which kinds were delivered if and only if no two of them clash. */
  lemma DeliveriesConfluentIff(orders: map<OrderId, Order>, id: OrderId, kinds: set<OrderStatus>)
    requires id in orders && orders[id].status == Pending && Deliverable(orders[id], kinds)
    ensures (forall a, b :: AllAbout(orders[id], a) && AllAbout(orders[id], b)
                            && Delivers(Targets(a), kinds) && Delivers(Targets(b), kinds) ==>
               DeliverAll(orders, id, a)[id].status == DeliverAll(orders, id, b)[id].status)
            <==> !Conflicting(kinds)
  {
    if Conflicting(kinds) {
      forall y | y in kinds
        ensures SessionTarget(y)
      {
        var p :| About(orders[id], p) && Target(p) == Some(y);
        AboutTarget(orders[id], p);
      }
      var s, t := ConflictMatters(kinds);
      var a := DeliveriesOf(orders, id, s, kinds);
      var b := DeliveriesOf(orders, id, t, kinds);
      assert DeliverAll(orders, id, a)[id].status != DeliverAll(orders, id, b)[id].status;
    } else {
      forall a | AllAbout(orders[id], a) && Delivers(Targets(a), kinds)
        ensures DeliverAll(orders, id, a)[id].status == Winner(kinds)
      {
        DeliveriesAreConfluent(orders, id, a);
      }
    }
  }

  /** Every kind of event can occur, for any order with a session and something to pay in
      a currency. */
  lemma AllKindsDeliverable(row: Order)
    requires row.sessionId.Some? && row.total > 0 && row.currency != ""
    ensures Deliverable(row, {Processing, Paid, Failed, Expired})
  {
    var unpaid := Session(row.sessionId.value, true, SessionUnpaid, row.total, row.currency, None);
    var paid := unpaid.(payment := SessionPaid);
    assert About(row, SessionCompleted(unpaid)) && Target(SessionCompleted(unpaid)) == Some(Processing);
    assert About(row, SessionCompleted(paid)) && Target(SessionCompleted(paid)) == Some(Paid);
    assert About(row, AsyncFailed(paid)) && Target(AsyncFailed(paid)) == Some(Failed);
    assert About(row, SessionExpired(paid)) && Target(SessionExpired(paid)) == Some(Expired);
  }
}
