/** Shared value types: statuses, outcomes, and the table that says when a webhook
    whose UPDATE matched no row has nevertheless already taken effect. */
module Domain {

  datatype Option<T> = None | Some(value: T) {
    function GetOr(default: T): T {
      match this
      case Some(v) => v
      case None => default
    }
  }

  datatype Result<T, E> = Ok(value: T) | Err(error: E)

  /** Milliseconds on the one clock the database and the servers share. */
  type Time = nat

  /** A `processing` event may be reclaimed once its claim is older than this. */
  const STALE_WEBHOOK: Time := 300_000

  /** The router cuts a webhook request off after this long. */
  const WEBHOOK_TIMEOUT: Time := 120_000

  /** The router ends the context of a checkout request after this long. */
  const CHECKOUT_TIMEOUT: Time := 60_000

  /** The sweep cancels session-less pending orders older than this. */
  const STALE_ORDER: Time := 900_000

  datatype OrderStatus = Pending | Processing | Paid | Failed | Expired | Canceled | Refunded

  datatype EventStatus = Received | InFlight | Processed | Ignored | Rejected

  datatype Outcome = Acknowledged | RetryLater | ProcessingFailed

  /** True when an order already reflects the webhook's target although the UPDATE
      touched no row: a duplicate, or an order that has moved past the target. */
  predicate WebhookOrderEffectSatisfied(current: OrderStatus, target: OrderStatus, refundOnly: bool) {
    if refundOnly then current == Refunded
    else if current == target then true
    else match target
      case Processing => current == Paid || current == Refunded
      case Paid => current == Refunded
      case Failed => current == Paid || current == Refunded
      case Expired => current == Paid || current == Refunded
      case _ => false
  }

  /** The statuses from which an event still moves an order to its target. */
  predicate Advances(status: OrderStatus, target: OrderStatus) {
    match target
    case Processing => status == Pending
    case Paid => status in {Pending, Processing}
    case Failed => status in {Pending, Processing}
    case Expired => status == Pending
    case Refunded => status == Paid
    case _ => false
  }

  /** The statuses in which an order receives an event without complaint: those it can be
      moved from, and those that lie past the target. */
  predicate Receives(status: OrderStatus, target: OrderStatus) {
    match target
    case Processing => status in {Pending, Processing, Paid, Refunded}
    case Paid => status in {Pending, Processing, Paid, Refunded}
    case Failed => status in {Pending, Processing, Failed, Paid, Refunded}
    case Expired => status in {Pending, Expired, Paid, Refunded}
    case Refunded => status in {Paid, Refunded}
    case _ => false
  }

  /** What counts as an effect already there is exactly what an order receives without
      being moved by it. */
  lemma EffectSatisfiedExactly(current: OrderStatus, target: OrderStatus)
    requires target in {Processing, Paid, Failed, Expired, Refunded}
    ensures WebhookOrderEffectSatisfied(current, target, target == Refunded)
            <==> Receives(current, target) && !Advances(current, target)
  {
  }

  /** Height of a status in the order life cycle. */
  function Rank(status: OrderStatus): nat {
    match status
    case Pending => 0
    case Processing => 1
    case Paid => 2
    case Failed => 2
    case Expired => 2
    case Canceled => 2
    case Refunded => 3
  }

  /** The single-step edges of the order life cycle. */
  predicate Edge(before: OrderStatus, after: OrderStatus) {
    match before
    case Pending => after in {Processing, Paid, Failed, Expired, Canceled}
    case Processing => after in {Paid, Failed}
    case Paid => after == Refunded
    case _ => false
  }

  /** Statuses an order can have later, given its status now: the reflexive and
      transitive closure of `Edge`. */
  predicate Leads(before: OrderStatus, after: OrderStatus) {
    before == after ||
    match before
    case Pending => true
    case Processing => after in {Paid, Failed, Refunded}
    case Paid => after == Refunded
    case _ => false
  }

  /** Currency codes compare without regard to ASCII letter case. */
  function FoldChar(c: char): char {
    if 'A' <= c <= 'Z' then (c as int + 32) as char else c
  }

  predicate EqualFold(a: string, b: string) {
    |a| == |b| && forall i :: 0 <= i < |a| ==> FoldChar(a[i]) == FoldChar(b[i])
  }

  /** The same character, or the two cases of one ASCII letter. */
  predicate SameLetter(x: char, y: char) {
    var m, n := x as int, y as int;
    m == n || (65 <= m <= 90 && n == m + 32) || (97 <= m <= 122 && m == n + 32)
  }

  predicate SameCurrency(a: string, b: string) {
    |a| == |b| && forall i :: 0 <= i < |a| ==> SameLetter(a[i], b[i])
  }

  /** Folding compares codes letter by letter, and nothing else. */
  lemma EqualFoldExactly(a: string, b: string)
    ensures EqualFold(a, b) <==> SameCurrency(a, b)
  {
    if |a| == |b| {
      forall i | 0 <= i < |a|
        ensures FoldChar(a[i]) == FoldChar(b[i]) <==> SameLetter(a[i], b[i])
      {
        FoldsExactly(a[i], b[i]);
      }
    }
  }

  lemma FoldsExactly(x: char, y: char)
    ensures FoldChar(x) == FoldChar(y) <==> SameLetter(x, y)
  {
  }
}
