/** The services as they run: sequences of store calls, with everyone else free to act
    between any two of them. Each is shown to be a behaviour of the protocol, so every
    theorem about runs applies to it. */
module Services {
  import opened Domain
  import opened Pricing
  import opened Canonical
  import Json
  import opened Validation
  import opened Tables
  import opened WebhookProgram
  import opened CheckoutProgram
  import opened Protocol
  import opened Stores
  import EventTheorems
  import SagaTheorems

  /** The store together with the protocol state it is the database of, and the run that
      has led there. */
  class Cluster {
    const store: Store
    var world: State
    ghost var tr: seq<State>
    ghost var acts: seq<Action>

    /** The run recorded so far is a run of the protocol and ends in `world`. */
    ghost predicate Recorded()
      reads this
    {
      Run(tr, acts) && tr[|tr| - 1] == world
    }

    ghost predicate Valid()
      reads this, store
    {
      Recorded() && world.db == store.Contents()
    }

    constructor (payloads: map<EventId, Payload>, now: Time)
      ensures Valid() && fresh(store) && world.payloads == payloads
    {
      var s := new Store(now);
      store := s;
      world := State(Db(map[], map[], now), payloads, map[], map[], map[]);
      tr := [State(Db(map[], map[], now), payloads, map[], map[], map[])];
      acts := [];
    }

    /** Records an action whose effect on the tables the store already shows. */
    method Note(a: Action)
      requires Recorded() && Enabled(world, a) && store.Contents() == Step(world, a).db
      modifies this
      ensures Valid() && world == Step(old(world), a)
      ensures tr == old(tr) + [world] && acts == old(acts) + [a]
    {
      ghost var before, done := tr, acts;
      world := Step(world, a);
      tr, acts := tr + [world], acts + [a];
      forall i | 0 <= i < |acts|
        ensures StepAt(tr, acts, i)
      {
        if i < |done| {
          assert StepAt(before, done, i);
        }
      }
    }

    /** Any number of actions by anyone but the given handler and checkout, whose request's
        context may come to its end meanwhile. */
    method Others(hook: Option<Tid>, cart: Option<Tid>)
      requires Valid()
      modifies this, store
      ensures Valid() && old(tr) <= tr && old(acts) <= acts && world.payloads == old(world.payloads)
      ensures hook.Some? && hook.value in old(world.hooks) ==>
                hook.value in world.hooks && world.hooks[hook.value] == old(world.hooks[hook.value])
      ensures cart.Some? && cart.value in old(world.carts) ==>
                cart.value in world.carts && PerhapsCut(old(world.carts[cart.value]), world.carts[cart.value])
    {
      var moves: nat := *;
      while moves > 0
        invariant Valid() && old(tr) <= tr && old(acts) <= acts && world.payloads == old(world.payloads)
        invariant hook.Some? && hook.value in old(world.hooks) ==>
                    hook.value in world.hooks && world.hooks[hook.value] == old(world.hooks[hook.value])
        invariant cart.Some? && cart.value in old(world.carts) ==>
                    cart.value in world.carts && PerhapsCut(old(world.carts[cart.value]), world.carts[cart.value])
      {
        var a: Action := *;
        if Enabled(world, a) && !OwnAction(a, hook, cart) {
          OthersLeaveAlone(world, a, hook, cart);
          var db := Step(world, a).db;
          store.orders, store.events, store.now := db.orders, db.events, db.now;
          Note(a);
        }
        moves := moves - 1;
      }
    }
  }

  /** The same checkout, but its context may be over by now. */
  predicate PerhapsCut(before: Cart, after: Cart) {
    after == before || after == before.(cut := true)
  }

  /** Is the action one of the given handler's or checkout's own? */
  predicate OwnAction(a: Action, hook: Option<Tid>, cart: Option<Tid>) {
    || ((a.Deliver? || a.HookStep? || a.HookCrash?) && hook == Some(a.t))
    || ((a.Submit? || a.CartStep? || a.CartCrash?) && cart == Some(a.t))
  }

  lemma OthersLeaveAlone(s: State, a: Action, hook: Option<Tid>, cart: Option<Tid>)
    requires Enabled(s, a) && !OwnAction(a, hook, cart)
    ensures Step(s, a).payloads == s.payloads
    ensures hook.Some? && hook.value in s.hooks ==>
              hook.value in Step(s, a).hooks && Step(s, a).hooks[hook.value] == s.hooks[hook.value]
    ensures cart.Some? && cart.value in s.carts ==>
              cart.value in Step(s, a).carts && PerhapsCut(s.carts[cart.value], Step(s, a).carts[cart.value])
  {
  }

  // ---- Webhooks --------------------------------------------------------------------

  class WebhookService {
    const cluster: Cluster

    constructor (cluster: Cluster)
      ensures this.cluster == cluster
    {
      this.cluster := cluster;
    }

    /** The handler `t` is running, for event `e`, and stands at `pc`. */
    ghost predicate At(t: Tid, e: EventId, pc: HookPc)
      reads this, cluster, cluster.store
    {
      && cluster.Valid() && e in cluster.world.payloads
      && t in cluster.world.hooks && cluster.world.hooks[t].event == e && cluster.world.hooks[t].pc == pc
    }

    /** Takes the step the last store call amounts to, then lets the others run. */
    method Pass(t: Tid, c: HookChoice)
      requires cluster.Recorded() && Enabled(cluster.world, HookStep(t, c))
      requires cluster.store.Contents() == Step(cluster.world, HookStep(t, c)).db
      modifies cluster, cluster.store
      ensures cluster.Valid() && old(cluster.acts) <= cluster.acts && t in cluster.world.hooks
      ensures cluster.world.payloads == old(cluster.world.payloads)
      ensures cluster.world.hooks[t] ==
              old(HookNext(cluster.world.db, cluster.world.payloads[cluster.world.hooks[t].event],
                  cluster.world.hooks[t], c))
    {
      cluster.Note(HookStep(t, c));
      cluster.Others(Some(t), None);
    }

    /** Delivers the event: read, insert if new, claim, build, commit or report failure. */
    method Handle(t: Tid, e: EventId) returns (outcome: Outcome)
      requires cluster.Valid() && t !in cluster.world.hooks && e in cluster.world.payloads
      modifies cluster, cluster.store
      ensures At(t, e, Done(outcome)) && old(cluster.acts) <= cluster.acts
      ensures outcome == Acknowledged && Handled(cluster.world.payloads[e]) ==>
              EventTheorems.Effective(cluster.world, e)
    {
      cluster.Note(Deliver(t, e));
      cluster.Others(Some(t), None);
      outcome := Receive(t, e);
      AcknowledgedIsEffective(t, e, outcome);
    }

    method Receive(t: Tid, e: EventId) returns (outcome: Outcome)
      requires At(t, e, Read)
      modifies cluster, cluster.store
      ensures At(t, e, Done(outcome)) && old(cluster.acts) <= cluster.acts
    {
      var existing := cluster.store.GetWebhookEvent(e);
      Pass(t, HookChoice(existing.Err?, None));
      if existing.Err? {
        outcome := RetryLater;
      } else if existing.value.Some? {
        outcome := HandleExisting(t, e, existing.value.value);
      } else {
        outcome := HandleNew(t, e);
      }
    }

    lemma AcknowledgedIsEffective(t: Tid, e: EventId, outcome: Outcome)
      requires At(t, e, Done(outcome))
      ensures outcome == Acknowledged && Handled(cluster.world.payloads[e]) ==>
              EventTheorems.Effective(cluster.world, e)
    {
      var last := |cluster.tr| - 1;
      if outcome == Acknowledged && Handled(cluster.world.payloads[e]) {
        EventTheorems.AcknowledgementIsDurable(cluster.tr, cluster.acts, last, last, t);
      }
    }

    method HandleExisting(t: Tid, e: EventId, existing: EventRow) returns (outcome: Outcome)
      requires cluster.Valid() && e in cluster.world.payloads && t in cluster.world.hooks
      requires cluster.world.hooks[t].event == e
      requires cluster.world.hooks[t].pc == match existing.status
               case Processed => Done(Acknowledged)
               case Ignored => Done(Acknowledged)
               case Rejected => if Handled(cluster.world.payloads[e]) then TryClaim else Ignore
               case Received => Done(RetryLater)
               case InFlight => TestStale(existing)
      modifies cluster, cluster.store
      ensures At(t, e, Done(outcome)) && old(cluster.acts) <= cluster.acts
    {
      match existing.status {
        case Processed => return Acknowledged;
        case Ignored => return Acknowledged;
        case Received => return RetryLater;
        case Rejected => outcome := Dispatch(t, e);
        case InFlight =>
          var stale := IsStaleWebhookProcessing(existing, cluster.store.now);
          Pass(t, HookChoice(false, None));
          if !stale {
            return RetryLater;
          }
          outcome := Dispatch(t, e);
      }
    }

    method HandleNew(t: Tid, e: EventId) returns (outcome: Outcome)
      requires At(t, e, Insert)
      modifies cluster, cluster.store
      ensures At(t, e, Done(outcome)) && old(cluster.acts) <= cluster.acts
    {
      var problem := cluster.store.InsertWebhookEvent(e);
      Pass(t, HookChoice(problem == Some(Unavailable), None));
      if problem == Some(Violation(UniqueViolation)) {
        outcome := HandleExistingAfterInsertRace(t, e);
      } else if problem.Some? {
        outcome := RetryLater;
      } else {
        outcome := Dispatch(t, e);
      }
    }

    method HandleExistingAfterInsertRace(t: Tid, e: EventId) returns (outcome: Outcome)
      requires At(t, e, RaceRead)
      modifies cluster, cluster.store
      ensures At(t, e, Done(outcome)) && old(cluster.acts) <= cluster.acts
    {
      var existing := cluster.store.GetWebhookEvent(e);
      Pass(t, HookChoice(existing.Err?, None));
      if existing.Err? || existing.value.None? {
        return RetryLater;
      }
      match existing.value.value.status {
        case Processed => return Acknowledged;
        case Ignored => return Acknowledged;
        case _ => return RetryLater;
      }
    }

    /** From here on the event is known to be recorded and open. */
    method Dispatch(t: Tid, e: EventId) returns (outcome: Outcome)
      requires e in cluster.world.payloads && At(t, e, if Handled(cluster.world.payloads[e]) then TryClaim else Ignore)
      modifies cluster, cluster.store
      ensures At(t, e, Done(outcome)) && old(cluster.acts) <= cluster.acts
    {
      if !Handled(cluster.world.payloads[e]) {
        var problem := cluster.store.MarkWebhookIgnored(e);
        Pass(t, HookChoice(problem.Some?, None));
        return Acknowledged;
      }
      var claimed := cluster.store.ClaimWebhookEvent(e);
      Pass(t, HookChoice(claimed.Err?, None));
      if claimed.Err? {
        outcome := RetryLater;
      } else if !claimed.value {
        outcome := HandleUnclaimedEvent(t, e);
      } else {
        outcome := Process(t, e);
      }
    }

    method HandleUnclaimedEvent(t: Tid, e: EventId) returns (outcome: Outcome)
      requires At(t, e, Unclaimed)
      modifies cluster, cluster.store
      ensures At(t, e, Done(outcome)) && old(cluster.acts) <= cluster.acts
    {
      var existing := cluster.store.GetWebhookEvent(e);
      Pass(t, HookChoice(existing.Err?, None));
      if existing.Err? || existing.value.None? {
        return RetryLater;
      }
      match existing.value.value.status {
        case Processed => return Acknowledged;
        case Rejected => return ProcessingFailed;
        case _ => return RetryLater;
      }
    }

    /** Finds the order the event is about. */
    method FindOrder(p: Payload) returns (r: Result<Option<Found>, StoreError>)
      ensures r.Ok? ==> Finds(cluster.store.orders, LookupFor(p), PickOf(r.value))
                        && r.value == FoundIn(cluster.store.orders, PickOf(r.value))
      ensures LookupFor(p).NoLookup? ==> r == Ok(None)
    {
      match LookupFor(p) {
        case NoLookup => return Ok(None);
        case BySession(id) => r := cluster.store.GetOrderBySessionID(id);
        case ByIntent(i) => r := cluster.store.GetOrderByPaymentIntentID(i);
      }
    }

    method Process(t: Tid, e: EventId) returns (outcome: Outcome)
      requires At(t, e, BuildCompletion)
      modifies cluster, cluster.store
      ensures At(t, e, Done(outcome)) && old(cluster.acts) <= cluster.acts
    {
      var p, at := cluster.world.payloads[e], cluster.store.now;
      var found := FindOrder(p);
      var built := Err(StoreFault);
      if found.Ok? {
        built := Build(e, p, found.value, at);
        Pass(t, HookChoice(false, PickOf(found.value)));
      } else {
        Pass(t, HookChoice(true, None));
      }
      outcome := Conclude(t, e, built, at);
    }

    /** Commits a completion, or reports that none could be built. */
    method Conclude(t: Tid, e: EventId, built: Result<Completion, BuildError>, at: Time) returns (outcome: Outcome)
      requires At(t, e, if built.Ok? then Complete(built.value, at) else ReportFailure)
      modifies cluster, cluster.store
      ensures At(t, e, Done(outcome)) && old(cluster.acts) <= cluster.acts
    {
      if built.Ok? {
        var problem := cluster.store.CompleteWebhookProcessing(built.value);
        Pass(t, HookChoice(problem == Some(Unavailable), None));
        outcome := if problem.Some? then ProcessingFailed else Acknowledged;
      } else {
        var problem := cluster.store.FailWebhookEvent(e);
        Pass(t, HookChoice(problem == Some(Unavailable), None));
        outcome := ProcessingFailed;
      }
    }
  }

  // ---- Checkout --------------------------------------------------------------------

  /** The payment provider, which answers as it likes. It keeps a record of the orders it
      was asked to charge and of the sessions it was asked to expire. */
  class StripeClient {
    var requested: seq<Draft>
    var expired: seq<string>

    constructor ()
      ensures requested == [] && expired == []
    {
      requested, expired := [], [];
    }

    method CreateCheckoutSession(d: Draft) returns (r: Option<StripeSession>)
      modifies this
      ensures requested == old(requested) + [d] && expired == old(expired)
      ensures r.Some? ==> r.value.id != ""
    {
      requested := requested + [d];
      var session: StripeSession := *;
      if * {
        return None;
      }
      return if session.id == "" then None else Some(session);
    }

    method ExpireCheckoutSession(sessionId: string) returns (ok: bool)
      modifies this
      ensures expired == old(expired) + [sessionId] && requested == old(requested)
    {
      expired := expired + [sessionId];
      ok := *;
    }
  }

  datatype Answer = Malformed(problem: ValidationError) | Answered(reply: Reply)

  class OrderService {
    const cluster: Cluster
    const stripe: StripeClient

    constructor (cluster: Cluster, stripe: StripeClient)
      ensures this.cluster == cluster
    {
      this.cluster, this.stripe := cluster, stripe;
    }

    /** Checkout `t` is running on behalf of `k`'s request and stands at `pc`. */
    ghost predicate At(t: Tid, k: Cart, pc: CartPc)
      reads this, cluster, cluster.store
    {
      && cluster.Valid() && t in cluster.world.carts
      && SameClient(cluster.world.carts[t], k) && cluster.world.carts[t].pc == pc
    }

    ghost predicate FinishedWith(t: Tid, k: Cart, reply: Reply)
      reads this, cluster, cluster.store
    {
      && cluster.Valid() && t in cluster.world.carts && SameClient(cluster.world.carts[t], k)
      && cluster.world.carts[t].pc.Finished? && cluster.world.carts[t].pc.reply == reply
    }

    /** Is the context of the request over? */
    function Over(t: Tid): bool
      reads this, cluster
    {
      t in cluster.world.carts && cluster.world.carts[t].cut
    }

    /** A session is expired at Stripe exactly when the checkout has failed to store it, and
        it is the one on record. */
    ghost predicate ExpiredOnRecord(before: seq<string>, after: seq<string>, k: Cart) {
      if k.pc.Finished? && k.pc.reply == Refused(PersistFailed) then
        && |k.calls| >= 2 && k.calls[|k.calls| - 2].ExpireTry?
        && after == before + [k.calls[|k.calls| - 2].sessionId]
      else after == before
    }

    method Pass(t: Tid, c: CartChoice)
      requires cluster.Recorded() && Enabled(cluster.world, CartStep(t, c))
      requires cluster.store.Contents() == Step(cluster.world, CartStep(t, c)).db
      modifies cluster, cluster.store
      ensures cluster.Valid() && old(cluster.acts) <= cluster.acts && t in cluster.world.carts
      ensures PerhapsCut(old(CartNext(cluster.world.db, cluster.world.carts[t], c)), cluster.world.carts[t])
    {
      cluster.Note(CartStep(t, c));
      cluster.Others(None, Some(t));
    }

    /** A malformed request touches nothing. Any other runs the saga to its end: it makes
        exactly the calls its reply stands for, and a success leaves the returned session
        on the order row. */
    method CreateCheckoutSession(t: Tid, key: string, input: Request, emailParses: bool) returns (answer: Answer)
      requires cluster.Valid() && t !in cluster.world.carts
      modifies cluster, cluster.store, stripe
      ensures cluster.Valid() && old(cluster.acts) <= cluster.acts
      ensures answer.Malformed? <==> !ValidRequest(input, emailParses) || !ValidKey(key)
      ensures answer.Malformed? ==>
                && cluster.world == old(cluster.world)
                && stripe.requested == old(stripe.requested) && stripe.expired == old(stripe.expired)
      ensures answer.Answered? ==>
                && FinishedWith(t, NewCart(input, key, old(cluster.world.db.now)), answer.reply)
                && SagaTheorems.FinalCallsOk(input.mode, answer.reply, cluster.world.carts[t].calls)
                && SagaTheorems.OutcomeHolds(cluster.world, cluster.world.carts[t])
                && ExpiredOnRecord(old(stripe.expired), stripe.expired, cluster.world.carts[t])
    {
      var problem := ValidateCheckoutInput(input, emailParses);
      if problem.Some? {
        return Answer.Malformed(problem.value);
      }
      problem := ValidateIdempotencyKey(key);
      if problem.Some? {
        return Answer.Malformed(problem.value);
      }
      var body := BuildCanonicalBody(input);
      cluster.Note(Submit(t, input, key, emailParses));
      var k := cluster.world.carts[t];
      assert k.hash == Json.Render(BodyTokens(body));
      cluster.Others(None, Some(t));
      var reply := ResolveOrRun(t, k);
      SagaIsSound(t);
      return Answered(reply);
    }

    /** Resolves the key, if there is one, and runs the saga unless that settles the matter. */
    method ResolveOrRun(t: Tid, k: Cart) returns (reply: Reply)
      requires At(t, k, if k.key == "" then Price else Resolve(false))
      modifies cluster, cluster.store, stripe
      ensures FinishedWith(t, k, reply) && old(cluster.acts) <= cluster.acts
      ensures t in cluster.world.carts && ExpiredOnRecord(old(stripe.expired), stripe.expired, cluster.world.carts[t])
    {
      if k.key == "" {
        reply := RunSaga(t, k);
      } else {
        var replay := ResolveIdempotency(t, k, false);
        if replay.Some? {
          reply := replay.value;
        } else {
          reply := RunSaga(t, k);
        }
      }
    }

    lemma SagaIsSound(t: Tid)
      requires cluster.Valid() && t in cluster.world.carts && cluster.world.carts[t].pc.Finished?
      ensures SagaTheorems.FinalCallsOk(cluster.world.carts[t].request.mode, cluster.world.carts[t].pc.reply,
                                        cluster.world.carts[t].calls)
      ensures SagaTheorems.OutcomeHolds(cluster.world, cluster.world.carts[t])
    {
      var last := |cluster.tr| - 1;
      SagaTheorems.SagaOutcome(cluster.tr, cluster.acts, last, last, t);
    }

    /** Looks the key up; releases it from a canceled order, replays a stored session, or
        refuses. No answer means: go on and create an order, or, the second time round,
        report the failed insert. */
    method ResolveIdempotency(t: Tid, k: Cart, second: bool) returns (replay: Option<Reply>)
      requires At(t, k, Resolve(second))
      modifies cluster, cluster.store
      ensures cluster.Valid() && old(cluster.acts) <= cluster.acts
      ensures replay.Some? ==> FinishedWith(t, k, replay.value)
      ensures replay.Some? ==> replay.value != Refused(PersistFailed)
      ensures replay.None? ==> if second then FinishedWith(t, k, Refused(InsertFailed(UniqueViolation)))
              else At(t, k, Price)
    {
      var existing := cluster.store.GetOrderByIdempotencyKey(Over(t), k.key);
      if existing.Err? {
        Pass(t, Fault);
        return Some(Refused(StoreError));
      }
      Pass(t, KeyLookup(PickOf(existing.value)));
      if existing.value.None? {
        return None;
      }
      var found := existing.value.value;
      if found.row.status == Canceled {
        replay := ReleaseKey(t, k, found.id, second);
        return;
      }
      var existingHash := ExtractRequestHash(found.row.metadata);
      if existingHash != "" && existingHash != k.hash {
        return Some(Refused(IdempotencyConflict));
      }
      if found.row.sessionId.GetOr("") == "" {
        return Some(Refused(CheckoutInProgress));
      }
      var reply := Replay(t, k, found);
      return Some(reply);
    }

    method ReleaseKey(t: Tid, k: Cart, id: OrderId, second: bool) returns (replay: Option<Reply>)
      requires At(t, k, Clear(id, second))
      modifies cluster, cluster.store
      ensures cluster.Valid() && old(cluster.acts) <= cluster.acts
      ensures replay.Some? ==> FinishedWith(t, k, replay.value)
      ensures replay.Some? ==> replay.value != Refused(PersistFailed)
      ensures replay.None? ==> if second then FinishedWith(t, k, Refused(InsertFailed(UniqueViolation)))
              else At(t, k, Price)
    {
      var problem := cluster.store.ClearOrderIdempotencyKey(Over(t), id);
      Pass(t, if problem.Some? then Fault else Proceeds);
      return if problem.Some? then Some(Refused(StoreError)) else None;
    }

    method Replay(t: Tid, k: Cart, found: Found) returns (reply: Reply)
      requires At(t, k, RenewToken(found))
      modifies cluster, cluster.store
      ensures cluster.Valid() && old(cluster.acts) <= cluster.acts
      ensures FinishedWith(t, k, reply) && reply != Refused(PersistFailed)
    {
      var token := GenerateToken();
      if token.None? {
        Pass(t, Fault);
        return Refused(StoreError);
      }
      var problem := cluster.store.UpdateOrderAccessTokenHash(Over(t), found.id, token.value);
      if problem == Some(Unavailable) {
        Pass(t, Fault);
        return Refused(StoreError);
      }
      Pass(t, NewToken(token.value));
      return if problem.Some? then Refused(StoreError) else Replayed(ReplayCheckout(found.id, found.row, token.value));
    }

    method GenerateToken() returns (token: Option<string>)
      ensures token.Some? ==> token.value != ""
    {
      var random: string := *;
      token := if random == "" then None else Some(random);
    }

    /** The catalogue as the database has it at this moment. */
    method GetProducts(over: bool) returns (r: Option<map<string, Product>>)
      ensures over ==> r == None
      ensures r.Some? ==> ValidCatalog(r.value)
    {
      var products: map<string, Product> := *;
      r := if !over && ValidCatalog(products) then Some(products) else None;
    }

    method RunSaga(t: Tid, k: Cart) returns (reply: Reply)
      requires At(t, k, Price)
      modifies cluster, cluster.store, stripe
      ensures cluster.Valid() && old(cluster.acts) <= cluster.acts
      ensures FinishedWith(t, k, reply)
      ensures t in cluster.world.carts && ExpiredOnRecord(old(stripe.expired), stripe.expired, cluster.world.carts[t])
    {
      var draft;
      draft, reply := PriceCart(t, k);
      if draft.Some? {
        reply := InsertPendingOrder(t, k, draft.value);
      }
    }

    method PriceCart(t: Tid, k: Cart) returns (draft: Option<Draft>, reply: Reply)
      requires At(t, k, Price)
      modifies cluster, cluster.store
      ensures cluster.Valid() && old(cluster.acts) <= cluster.acts
      ensures reply != Refused(PersistFailed)
      ensures if draft.Some? then At(t, k, InsertOrder(draft.value)) else FinishedWith(t, k, reply)
    {
      draft, reply := None, Refused(StoreError);
      var products := GetProducts(Over(t));
      if products.None? {
        Pass(t, Fault);
        return;
      }
      var priced := BuildCheckoutLineItems(k.request.items, products.value);
      if priced.Err? {
        Pass(t, Catalog(products.value, "", "", "-"));
        reply := Refused(PricingFailed(priced.error));
        return;
      }
      var id: string, number: string := *, *;
      var token := GenerateToken();
      if token.None? {
        Pass(t, Fault);
        return;
      }
      Pass(t, Catalog(products.value, id, number, token.value));
      draft := Some(Draft(id, number, token.value, priced.value.total, priced.value.currency, priced.value.lines));
    }

    method InsertPendingOrder(t: Tid, k: Cart, d: Draft) returns (reply: Reply)
      requires At(t, k, InsertOrder(d))
      modifies cluster, cluster.store, stripe
      ensures cluster.Valid() && old(cluster.acts) <= cluster.acts
      ensures FinishedWith(t, k, reply)
      ensures t in cluster.world.carts && ExpiredOnRecord(old(stripe.expired), stripe.expired, cluster.world.carts[t])
    {
      var problem := cluster.store.InsertOrderWithItems(Over(t), d.id, RowFor(k, d, cluster.store.now));
      assert RowFor(k, d, cluster.store.now) == RowFor(cluster.world.carts[t], d, cluster.store.now);
      Pass(t, if problem == Some(Unavailable) then Fault else Proceeds);
      if problem == None {
        reply := StartStripeCheckout(t, k, d);
      } else if problem == Some(Unavailable) {
        reply := Refused(StoreError);
      } else if problem == Some(Violation(UniqueViolation)) && k.key != "" {
        var replay := ResolveIdempotency(t, k, true);
        reply := if replay.Some? then replay.value else Refused(InsertFailed(UniqueViolation));
      } else {
        reply := Refused(InsertFailed(problem.value.cause));
      }
    }

    method StartStripeCheckout(t: Tid, k: Cart, d: Draft) returns (reply: Reply)
      requires At(t, k, CreateSession(d))
      modifies cluster, cluster.store, stripe
      ensures cluster.Valid() && old(cluster.acts) <= cluster.acts
      ensures FinishedWith(t, k, reply)
      ensures stripe.requested == old(stripe.requested) + [d]
      ensures t in cluster.world.carts && ExpiredOnRecord(old(stripe.expired), stripe.expired, cluster.world.carts[t])
    {
      var session := stripe.CreateCheckoutSession(d);
      if session.None? {
        Pass(t, Fault);
        CancelAfter(t, k, d, REASON_STRIPE);
        return Refused(StripeFailed);
      }
      Pass(t, StripeReply(session.value));
      reply := KeepSession(t, k, d, session.value);
    }

    /** Stores the session on the order, or undoes the checkout. */
    method KeepSession(t: Tid, k: Cart, d: Draft, session: StripeSession) returns (reply: Reply)
      requires At(t, k, Persist(d, 0, session))
      modifies cluster, cluster.store, stripe
      ensures cluster.Valid() && old(cluster.acts) <= cluster.acts
      ensures FinishedWith(t, k, reply)
      ensures reply == Refused(PersistFailed) ==> stripe.expired == old(stripe.expired) + [session.id]
      ensures reply != Refused(PersistFailed) ==> stripe.expired == old(stripe.expired)
      ensures stripe.requested == old(stripe.requested)
      ensures t in cluster.world.carts && ExpiredOnRecord(old(stripe.expired), stripe.expired, cluster.world.carts[t])
    {
      var stored := PersistSessionWithRetry(t, k, d, session);
      if !stored {
        CompensateFailedCheckout(t, k, d, session);
        return Refused(PersistFailed);
      }
      return Created(BuildCheckoutResult(d, k.request.mode, session));
    }

    /** At most three writes, stopping at the first that works or when the request is over. */
    method PersistSessionWithRetry(t: Tid, k: Cart, d: Draft, session: StripeSession) returns (stored: bool)
      requires At(t, k, Persist(d, 0, session))
      modifies cluster, cluster.store
      ensures cluster.Valid() && old(cluster.acts) <= cluster.acts
      ensures stored ==> FinishedWith(t, k, Created(BuildCheckoutResult(d, k.request.mode, session)))
      ensures !stored ==> At(t, k, ExpireSession(d, session))
      ensures t in cluster.world.carts
              && SagaTheorems.PersistTried(old(cluster.world.carts[t].calls), session.id, stored,
                                           cluster.world.carts[t].cut, cluster.world.carts[t].calls)
    {
      ghost var before := cluster.world.carts[t].calls;
      var attempt, over := 0, false;
      while attempt < PERSIST_ATTEMPTS && !over
        invariant 0 <= attempt <= PERSIST_ATTEMPTS && (over ==> attempt > 0) && old(cluster.acts) <= cluster.acts
        invariant At(t, k, if attempt < PERSIST_ATTEMPTS && !over then Persist(d, attempt, session)
                           else ExpireSession(d, session))
        invariant t in cluster.world.carts
                  && cluster.world.carts[t].calls == before + SagaTheorems.Failures(session.id, attempt)
        invariant over ==> cluster.world.carts[t].cut
      {
        stored, over := TryPersist(t, k, d, attempt, session);
        if stored {
          return true;
        }
        SagaTheorems.FailOnceMore(before, session.id, attempt);
        attempt := attempt + 1;
      }
      assert SagaTheorems.GivesUp(attempt, over);
      return false;
    }

    /** One write; if it fails, the pause after it ends early when the context is over. */
    method TryPersist(t: Tid, k: Cart, d: Draft, attempt: nat, session: StripeSession)
        returns (stored: bool, over: bool)
      requires attempt < PERSIST_ATTEMPTS && At(t, k, Persist(d, attempt, session))
      modifies cluster, cluster.store
      ensures cluster.Valid() && old(cluster.acts) <= cluster.acts
      ensures stored ==> FinishedWith(t, k, Created(BuildCheckoutResult(d, k.request.mode, session)))
      ensures !stored ==> At(t, k, if attempt + 1 < PERSIST_ATTEMPTS && !over then Persist(d, attempt + 1, session)
                                   else ExpireSession(d, session))
      ensures t in cluster.world.carts
              && cluster.world.carts[t].calls == old(cluster.world.carts[t].calls) + [PersistTry(session.id, stored)]
              && (over ==> cluster.world.carts[t].cut)
    {
      over := Over(t);
      var problem := cluster.store.StoreOrderSession(over, d.id, session.id, session.url, session.clientSecret);
      if problem == None {
        Pass(t, Proceeds);
        return true, false;
      }
      if * {
        over := true;
      }
      Pass(t, if over then ContextDone else if problem == Some(Unavailable) then Fault else Proceeds);
      return false, over;
    }

    method CompensateFailedCheckout(t: Tid, k: Cart, d: Draft, session: StripeSession)
      requires At(t, k, ExpireSession(d, session))
      modifies cluster, cluster.store, stripe
      ensures cluster.Valid() && old(cluster.acts) <= cluster.acts
      ensures FinishedWith(t, k, Refused(PersistFailed))
      ensures stripe.expired == old(stripe.expired) + [session.id] && stripe.requested == old(stripe.requested)
      ensures t in cluster.world.carts && ExpiredOnRecord(old(stripe.expired), stripe.expired, cluster.world.carts[t])
    {
      var expired := stripe.ExpireCheckoutSession(session.id);
      Pass(t, if expired then Proceeds else Fault);
      SagaTheorems.ReasonsDiffer();
      CancelAfter(t, k, d, REASON_PERSIST);
    }

    method CancelAfter(t: Tid, k: Cart, d: Draft, reason: string)
      requires At(t, k, Cancel(d, reason))
      modifies cluster, cluster.store
      ensures cluster.Valid() && old(cluster.acts) <= cluster.acts
      ensures t in cluster.world.carts
              && exists ok :: cluster.world.carts[t].calls == old(cluster.world.carts[t].calls) + [CancelTry(ok)]
      ensures FinishedWith(t, k, Refused(if reason == REASON_STRIPE then StripeFailed else PersistFailed))
    {
      var problem := cluster.store.CancelOrderRow(Over(t), d.id, reason);
      Pass(t, if problem.Some? then Fault else Proceeds);
    }
  }

  /** The parts of a checkout that stay the same from start to end. */
  predicate SameClient(a: Cart, b: Cart) {
    a.request == b.request && a.key == b.key && a.hash == b.hash
  }
}
