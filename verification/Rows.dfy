/** How a single row may change: what every statement of the protocol respects. */
module Rows {
  import opened Domain
  import opened Tables
  import opened WebhookProgram

  /** Columns fixed at insertion. */
  predicate SameIdentity(a: Order, b: Order) {
    && a.number == b.number && a.total == b.total && a.currency == b.currency && a.mode == b.mode
    && a.createdAt == b.createdAt && a.lines == b.lines
    && ExtractRequestHash(a.metadata) == ExtractRequestHash(b.metadata)
  }

  predicate Settled(status: OrderStatus) {
    status == Paid || status == Refunded
  }

  /** What can have happened to a row between two moments: reflexive and transitive. */
  predicate Evolves(a: Order, b: Order) {
    && SameIdentity(a, b)
    && Leads(a.status, b.status)
    && (b.key == a.key || (b.key == None && b.status == Canceled))
    && (a.sessionId.Some? ==> b.sessionId == a.sessionId && b.url == a.url && b.clientSecret == a.clientSecret)
    && (Settled(a.status) ==> b.paidAt == a.paidAt && b.paymentIntent == a.paymentIntent)
    && (a.sessionId.Some? && a.status != Canceled ==> b.status != Canceled)
  }

  lemma EvolvesReflexive(a: Order)
    ensures Evolves(a, a)
  {
  }

  lemma EvolvesTransitive(a: Order, b: Order, c: Order)
    requires Evolves(a, b) && Evolves(b, c)
    ensures Evolves(a, c)
  {
  }

  /** One action. `mine` says whether the acting checkout inserted the row; only it may
      give the row a session, and anyone else cancels it only once it is stale. */
  predicate RowMoves(a: Order, b: Order, mine: bool, now: Time) {
    && Evolves(a, b)
    && (a.status == b.status || Edge(a.status, b.status))
    && (!mine && a.sessionId.None? ==> b.sessionId.None?)
    && (!mine && b.status == Canceled && a.status != Canceled ==> a.createdAt + STALE_ORDER < now)
    && (b.sessionId != a.sessionId ==> b.status == a.status)
    && (b.sessionId == Some("") ==> a.sessionId == Some(""))
    && (b.sessionId.None? ==> b.status == a.status || b.status == Canceled)
    && ((a.paidAt.Some? <==> Settled(a.status)) ==> (b.paidAt.Some? <==> Settled(b.status)))
  }

  /** One action on an event row, given whether its type is handled. */
  predicate EventMoves(handled: bool, a: EventRow, b: EventRow, now: Time) {
    || a == b
    || (handled && match b.status
          case InFlight => (a.status == Received || a.status == Rejected
                            || (a.status == InFlight && a.startedAt.GetOr(a.createdAt) + STALE_WEBHOOK < now))
                           && b == a.(status := InFlight, startedAt := Some(now))
          case Processed => a.status == InFlight && b.startedAt == a.startedAt && (a.orderId.Some? ==> b.orderId.Some?)
          case Rejected => a.status == InFlight && b == a.(status := Rejected)
          case _ => false)
    || (!handled && b.status == Ignored && b.startedAt == a.startedAt)
  }

  lemma RowStays(a: Order, mine: bool, now: Time)
    ensures RowMoves(a, a, mine, now)
  {
  }

  lemma ReasonIsNotHash()
    ensures REASON_KEY != HASH_KEY
  {
    assert REASON_KEY[0] == 'c' && HASH_KEY[0] == '_';
  }

  // ---- Orders, statement by statement ----------------------------------------------

  lemma SweptMoves(row: Order, now: Time)
    ensures RowMoves(row, Swept(row, now), false, now)
  {
    ReasonIsNotHash();
  }

  lemma SessionMoves(row: Order, sessionId: string, url: string, secret: string, now: Time)
    requires row.sessionId.None? && sessionId != ""
    ensures RowMoves(row, row.(sessionId := Some(sessionId), url := NullIfEmpty(url),
            clientSecret := NullIfEmpty(secret)), true, now)
  {
  }

  lemma CancelMoves(row: Order, reason: string, now: Time)
    requires row.sessionId.None? && (row.status == Pending || row.status == Canceled)
    ensures RowMoves(row, row.(status := Canceled, key := None, metadata := row.metadata[REASON_KEY := reason]),
            true, now)
  {
    ReasonIsNotHash();
  }

  lemma TokenMoves(row: Order, token: string, now: Time)
    ensures RowMoves(row, row.(tokenHash := Some(token)), false, now)
  {
  }

  lemma ClearMoves(row: Order, now: Time)
    requires row.status == Canceled
    ensures RowMoves(row, row.(key := None), false, now)
  {
  }

  /** Orders with a session never lose it; the transaction never cancels. */
  lemma AdvanceMoves(row: Order, c: Completion, target: OrderStatus, now: Time)
    requires target in {Paid, Processing, Failed, Expired} && c.allowedFrom == AllowedFrom(target)
    requires row.status in c.allowedFrom && row.sessionId.Some? && (c.paidAt.Some? <==> target == Paid)
    ensures RowMoves(row, Advance(row, c, target), false, now)
  {
  }

  lemma RefundMoves(row: Order, now: Time)
    requires row.status == Paid && row.sessionId.Some?
    ensures RowMoves(row, row.(status := Refunded), false, now)
  {
  }

  // ---- Every status change climbs ---------------------------------------------------

  /** Each single step either keeps an order's status or follows an edge of the life
      cycle, and every edge climbs. */
  lemma RowMovesClimb(a: Order, b: Order, mine: bool, now: Time)
    requires RowMoves(a, b, mine, now)
    ensures a.status != b.status ==> Edge(a.status, b.status) && Rank(a.status) < Rank(b.status)
  {
  }
}
