/** Every action keeps what is known of every running handler and checkout: of the acting
    one because of what its step does, of the others because rows only evolve. */
module ThreadInvariants {
  import opened Domain
  import opened Pricing
  import opened Canonical
  import opened Validation
  import opened Tables
  import opened WebhookProgram
  import opened CheckoutProgram
  import opened Protocol
  import opened Rows
  import opened Invariants
  import opened Completions
  import opened Moving
  import opened TableInvariants
  import opened Provenance

  // ---- Handlers --------------------------------------------------------------------

  lemma OpenRowStable(s: State, s': State, actor: Option<Tid>, e: EventId)
    requires Moves(s, s', actor) && e in s.payloads && Handled(s.payloads[e]) && OpenRow(s.db.events, e)
    ensures OpenRow(s'.db.events, e)
  {
  }

  /** Whatever others do, a handler's knowledge stays true. */
  lemma HookStable(s: State, s': State, actor: Option<Tid>, h: Hook)
    requires Moves(s, s', actor) && EventsOk(s) && h.event in s.payloads && HookOk(s.db, s.payloads[h.event], h)
    ensures HookOk(s'.db, s'.payloads[h.event], h)
  {
    var p := s.payloads[h.event];
    if Handled(p) && OpenRow(s.db.events, h.event) {
      OpenRowStable(s, s', actor, h.event);
    }
    if h.pc.Complete? {
      CompletionStable(s.db.orders, s'.db.orders, h.event, p, h.pc.completion, h.pc.builtAt);
    }
  }

  lemma ReadKept(s: State, h: Hook, p: Payload)
    requires EventsOk(s) && h.event in s.payloads && p == s.payloads[h.event] && h.started <= s.db.now
    requires h.pc.Read?
    ensures HookOk(s.db, p, AfterRead(s.db, p, h))
  {
    if h.event in s.db.events {
      assert EventOk(s.db.orders, p, s.db.events[h.event], s.db.now);
    }
  }

  lemma InsertKept(s: State, h: Hook, p: Payload, c: HookChoice)
    requires EventsOk(s) && h.event in s.payloads && p == s.payloads[h.event] && h.started <= s.db.now
    requires h.pc.Insert?
    ensures HookOk(HookDb(s.db, p, h, c), p, HookNext(s.db, p, h, c))
  {
  }

  lemma AnswerKept(s: State, h: Hook, p: Payload, c: HookChoice)
    requires EventsOk(s) && h.event in s.payloads && p == s.payloads[h.event] && HookOk(s.db, p, h)
    requires h.pc.RaceRead? || h.pc.Unclaimed? || h.pc.TestStale? || h.pc.Ignore?
    ensures HookOk(HookDb(s.db, p, h, c), p, HookNext(s.db, p, h, c))
  {
    if h.event in s.db.events {
      assert EventOk(s.db.orders, p, s.db.events[h.event], s.db.now);
    }
  }

  lemma ClaimKept(s: State, h: Hook, p: Payload, c: HookChoice)
    requires EventsOk(s) && h.event in s.payloads && p == s.payloads[h.event] && HookOk(s.db, p, h)
    requires h.pc.TryClaim?
    ensures HookOk(HookDb(s.db, p, h, c), p, HookNext(s.db, p, h, c))
  {
    assert EventOk(s.db.orders, p, s.db.events[h.event], s.db.now);
  }

  lemma BuildKept(s: State, h: Hook, p: Payload, c: HookChoice)
    requires h.event in s.payloads && p == s.payloads[h.event] && HookOk(s.db, p, h)
    requires h.pc.BuildCompletion? && HookEnabled(s.db, p, h, c)
    ensures HookOk(s.db, p, AfterBuild(s.db, p, h, c))
  {
    var pick := if c.fault then None else c.pick;
    var next := AfterBuild(s.db, p, h, c);
    if next.pc.Complete? {
      BuildOk(s.db, h.event, p, pick, s.db.now);
    }
  }

  lemma CompleteKept(s: State, h: Hook, p: Payload, c: HookChoice)
    requires h.event in s.payloads && p == s.payloads[h.event] && HookOk(s.db, p, h)
    requires h.pc.Complete?
    ensures HookOk(HookDb(s.db, p, h, c), p, HookNext(s.db, p, h, c))
  {
    CompletionFacts(s.db.orders, h.event, p, h.pc.completion, h.pc.builtAt);
    if CompleteTx(s.db, h.pc.completion).Ok? {
      CommitEffect(s.db, h.pc.completion);
    }
  }

  lemma OwnStepKept(s: State, h: Hook, p: Payload, c: HookChoice)
    requires EventsOk(s) && h.event in s.payloads && p == s.payloads[h.event] && HookOk(s.db, p, h)
    requires HookEnabled(s.db, p, h, c)
    ensures HookOk(HookDb(s.db, p, h, c), p, HookNext(s.db, p, h, c)) && HookNext(s.db, p, h, c).event == h.event
  {
    match h.pc {
      case Read => ReadKept(s, h, p);
      case Insert => InsertKept(s, h, p, c);
      case TryClaim => ClaimKept(s, h, p, c);
      case BuildCompletion => BuildKept(s, h, p, c);
      case Complete(_, _) => CompleteKept(s, h, p, c);
      case ReportFailure =>
      case _ => AnswerKept(s, h, p, c);
    }
  }

  lemma OtherHooksKept(s: State, s': State, actor: Option<Tid>, t: Option<Tid>)
    requires EventsOk(s) && HooksOk(s) && Moves(s, s', actor)
    requires forall u :: u in s'.hooks && t != Some(u) ==> u in s.hooks && s'.hooks[u] == s.hooks[u]
    requires t.Some? && t.value in s'.hooks ==>
               s'.hooks[t.value].event in s'.payloads
                   && HookOk(s'.db, s'.payloads[s'.hooks[t.value].event], s'.hooks[t.value])
    ensures HooksOk(s')
  {
    forall u | u in s'.hooks && t != Some(u)
      ensures s'.hooks[u].event in s'.payloads && HookOk(s'.db, s'.payloads[s'.hooks[u].event], s'.hooks[u])
    {
      HookStable(s, s', actor, s.hooks[u]);
    }
  }

  lemma HookStepKept(s: State, t: Tid, c: HookChoice)
    requires OrdersOk(s) && EventsOk(s) && HooksOk(s) && Enabled(s, HookStep(t, c))
    ensures HooksOk(Step(s, HookStep(t, c)))
  {
    HookStepShape(s, t, c);
    HookMoves(s, t, c);
    HookKnown(s, t);
    OwnStepKept(s, s.hooks[t], s.payloads[s.hooks[t].event], c);
    OtherHooksKept(s, Step(s, HookStep(t, c)), None, Some(t));
  }

  lemma HooksKeptByArrival(s: State, t: Tid, e: EventId)
    requires OrdersOk(s) && EventsOk(s) && HooksOk(s) && Enabled(s, Deliver(t, e))
    ensures HooksOk(Step(s, Deliver(t, e)))
  {
    QuietMoves(s, Deliver(t, e));
    OtherHooksKept(s, Step(s, Deliver(t, e)), None, Some(t));
  }

  lemma HooksKeptByCrash(s: State, t: Tid)
    requires OrdersOk(s) && EventsOk(s) && HooksOk(s) && Enabled(s, HookCrash(t))
    ensures HooksOk(Step(s, HookCrash(t)))
  {
    QuietMoves(s, HookCrash(t));
    HookKnown(s, t);
    OtherHooksKept(s, Step(s, HookCrash(t)), None, Some(t));
  }

  lemma HooksKept(s: State, a: Action)
    requires OrdersOk(s) && EventsOk(s) && HooksOk(s) && CartsOk(s) && Enabled(s, a)
    ensures HooksOk(Step(s, a))
  {
    match a {
      case HookStep(t, c) => HookStepKept(s, t, c);
      case Deliver(t, e) => HooksKeptByArrival(s, t, e);
      case HookCrash(t) => HooksKeptByCrash(s, t);
      case _ =>
        StepMoves(s, a);
        OtherHooksKept(s, Step(s, a), Actor(a), None);
    }
  }

  // ---- Checkouts -------------------------------------------------------------------

  lemma OwnsStable(s: State, s': State, actor: Option<Tid>, t: Tid, k: Cart, d: Draft)
    requires Moves(s, s', actor) && OrdersOk(s) && Owns(s, t, k, d) && actor != Some(t)
    ensures Owns(s', t, k, d)
  {
    assert OrderOk(s.born[d.id], s.db.orders[d.id]);
    assert RowMoves(s.db.orders[d.id], s'.db.orders[d.id], false, s.db.now);
  }

  lemma ShowsStable(r: CheckoutResult, a: Order, b: Order)
    requires Shows(r, a) && Evolves(a, b)
    ensures Shows(r, b)
  {
  }

  lemma CreatedStable(s: State, s': State, actor: Option<Tid>, k: Cart, r: CheckoutResult, at: Time)
    requires Moves(s, s', actor) && CreatedOk(s, k, r, at)
    ensures CreatedOk(s', k, r, at)
  {
    ShowsStable(r, s.db.orders[r.orderId], s'.db.orders[r.orderId]);
  }

  lemma ReplayedStable(s: State, s': State, actor: Option<Tid>, k: Cart, r: CheckoutResult)
    requires Moves(s, s', actor) && ReplayedOk(s, k, r)
    ensures ReplayedOk(s', k, r)
  {
    ShowsStable(r, s.db.orders[r.orderId], s'.db.orders[r.orderId]);
  }

  lemma FoundStable(s: State, s': State, actor: Option<Tid>, k: Cart, f: Found)
    requires Moves(s, s', actor) && FoundLive(s, k, f)
    ensures FoundLive(s', k, f)
  {
    EvolvesTransitive(f.row, s.db.orders[f.id], s'.db.orders[f.id]);
  }

  /** Whatever others do, a checkout's knowledge stays true. */
  lemma CartStable(s: State, s': State, actor: Option<Tid>, t: Tid, k: Cart)
    requires Moves(s, s', actor) && OrdersOk(s) && CartOk(s, t, k) && actor != Some(t)
    ensures CartOk(s', t, k)
  {
    match k.pc {
      case RenewToken(f) => FoundStable(s, s', actor, k, f);
      case CreateSession(d) => OwnsStable(s, s', actor, t, k, d);
      case Persist(d, _, _) => OwnsStable(s, s', actor, t, k, d);
      case ExpireSession(d, _) => OwnsStable(s, s', actor, t, k, d);
      case Cancel(d, _) => OwnsStable(s, s', actor, t, k, d);
      case Finished(Created(r), at) => CreatedStable(s, s', actor, k, r, at);
      case Finished(Replayed(r), at) => ReplayedStable(s, s', actor, k, r);
      case _ =>
    }
  }

  /** What every step of a checkout carries over. */
  lemma SameRequest(db: Db, k: Cart, c: CartChoice)
    ensures var k' := CartNext(db, k, c);
            && k'.request == k.request && k'.key == k.key && k'.hash == k.hash && k'.started == k.started
            && (!k.pc.InsertOrder? ==> k'.mine == k.mine)
  {
  }

  lemma ResolveKept(s: State, k: Cart, pick: Option<OrderId>, second: bool)
    requires OrdersOk(s) && k.hash != "" && k.key != "" && FindsByKey(s.db.orders, k.key, pick)
    requires AfterResolve(s.db, k, pick, second).pc.RenewToken?
    ensures FoundLive(s, k, AfterResolve(s.db, k, pick, second).pc.found)
  {
    var id := pick.value;
    assert OrderOk(s.born[id], s.db.orders[id]);
    EvolvesReflexive(s.db.orders[id]);
  }

  lemma RenewKept(s: State, s': State, t: Tid, k: Cart, f: Found, token: string)
    requires OrdersOk(s) && FoundLive(s, k, f) && BirthsKept(s, s') && OrdersMove(s, s', Some(t))
    requires k.request.mode == HOSTED || k.request.mode == EMBEDDED
    ensures ReplayedOk(s', k, ReplayCheckout(f.id, f.row, token))
  {
    assert OrderOk(s.born[f.id], s.db.orders[f.id]);
    EvolvesTransitive(f.row, s.db.orders[f.id], s'.db.orders[f.id]);
    assert HOSTED[0] != EMBEDDED[0];
    assert f.row.mode == s.born[f.id].row.mode;
  }

  lemma PriceKept(k: Cart, c: CartChoice, now: Time)
    requires c.Catalog? && AfterPrice(k, c, now).pc.InsertOrder?
    ensures var d := AfterPrice(k, c, now).pc.draft; PricedOk(d.total, d.lines)
  {
    PricedLines(k.request.items, c.products);
  }

  lemma InsertStepKept(s: State, s': State, t: Tid, k: Cart, d: Draft, c: CartChoice)
    requires OrdersOk(s) && t in s.carts && s.carts[t] == k && k.started <= s.db.now && k.pc == InsertOrder(d)
    requires c.Proceeds? && CreateOrderWithItems(s.db, d.id, RowFor(k, d, s.db.now)).Ok?
    requires s'.db == CartDb(s.db, k, c) && s'.born == BornAfter(s, t, c)
    ensures Owns(s', t, CartNext(s.db, k, c), d)
  {
    var row := RowFor(k, d, s.db.now);
    InsertEffect(s.db, d.id, row);
    BirthsGrow(s, t, c);
    var k' := CartNext(s.db, k, c);
    SameRequest(s.db, k, c);
    assert k'.mine == Some(d.id);
    assert RowFor(k', d, s.db.now) == row;
  }

  lemma PersistKept(s: State, s': State, t: Tid, k: Cart, d: Draft, x: StripeSession)
    requires OrdersOk(s) && Owns(s, t, k, d) && x.id != "" && s'.born == s.born
    requires k.request.mode == HOSTED || k.request.mode == EMBEDDED
    requires ExtractRequestHash(s.born[d.id].row.metadata) == k.hash
    requires s'.db == UpdateOrderSession(s.db, d.id, x.id, x.url, x.clientSecret)
    ensures CreatedOk(s', k, BuildCheckoutResult(d, k.request.mode, x), s.db.now)
  {
    assert OrderOk(s.born[d.id], s.db.orders[d.id]);
  }

  lemma RowForHash(k: Cart, d: Draft, now: Time)
    ensures ExtractRequestHash(RowFor(k, d, now).metadata) == k.hash
  {
  }

  lemma ResolveStepKept(s: State, s': State, t: Tid, k: Cart, c: CartChoice)
    requires OrdersOk(s) && CartOk(s, t, k) && CartEnabled(s.db, k, c) && k.pc.Resolve?
    requires BirthsKept(s, s') && s.db.now <= s'.db.now && s'.db.orders == s.db.orders
    ensures CartOk(s', t, CartNext(s.db, k, c))
  {
    var k' := CartNext(s.db, k, c);
    SameRequest(s.db, k, c);
    ResolveNext(s.db, k, c);
    if k'.pc.RenewToken? {
      ResolveKept(s, k, c.pick, k.pc.second);
      FoundCarried(s, s', k, k', k'.pc.found);
    }
  }

  /** Where a lookup can lead. */
  lemma ResolveNext(db: Db, k: Cart, c: CartChoice)
    requires k.pc.Resolve? && CartEnabled(db, k, c)
    ensures var k' := CartNext(db, k, c);
            || k'.pc.Clear? || k'.pc.Price?
            || (k'.pc.Finished? && k'.pc.reply.Refused?)
            || (k'.pc.RenewToken? && c.KeyLookup? && FindsByKey(db.orders, k.key, c.pick)
                  && k' == AfterResolve(db, k, c.pick, k.pc.second))
  {
  }

  lemma PriceStepKept(s: State, s': State, t: Tid, k: Cart, c: CartChoice)
    requires CartOk(s, t, k) && CartEnabled(s.db, k, c) && s.db.now <= s'.db.now
    requires k.pc.Price? || k.pc.Clear?
    ensures CartOk(s', t, CartNext(s.db, k, c))
  {
    SameRequest(s.db, k, c);
    if k.pc.Price? && CartNext(s.db, k, c).pc.InsertOrder? {
      PriceKept(k, c, s.db.now);
    }
  }

  lemma FoundCarried(s: State, s': State, k: Cart, k': Cart, f: Found)
    requires FoundLive(s, k, f) && k'.key == k.key && k'.hash == k.hash
    requires s'.db.orders == s.db.orders && BirthsKept(s, s')
    ensures FoundLive(s', k', f)
  {
  }

  lemma ReplayedCarried(s: State, k: Cart, k': Cart, r: CheckoutResult)
    requires ReplayedOk(s, k, r) && k'.key == k.key && k'.hash == k.hash
    ensures ReplayedOk(s, k', r)
  {
  }

  lemma RenewStepKept(s: State, s': State, t: Tid, k: Cart, c: CartChoice)
    requires OrdersOk(s) && CartOk(s, t, k) && k.pc.RenewToken?
    requires OrdersMove(s, s', Some(t)) && BirthsKept(s, s') && s.db.now <= s'.db.now
    ensures CartOk(s', t, CartNext(s.db, k, c))
  {
    var f, k' := k.pc.found, CartNext(s.db, k, c);
    SameRequest(s.db, k, c);
    RenewNext(s.db, k, c);
    if k'.pc.reply.Replayed? {
      RenewKept(s, s', t, k, f, c.token);
      ReplayedCarried(s', k, k', k'.pc.reply.result);
    }
  }

  lemma RenewNext(db: Db, k: Cart, c: CartChoice)
    requires k.pc.RenewToken?
    ensures var f, pc := k.pc.found, CartNext(db, k, c).pc;
            pc.Finished?
            && (pc.reply.Refused? || (c.NewToken? && pc.reply == Replayed(ReplayCheckout(f.id, f.row, c.token))))
  {
  }

  lemma InsertKeptAll(s: State, s': State, t: Tid, k: Cart, c: CartChoice)
    requires OrdersOk(s) && CartOk(s, t, k) && k.pc.InsertOrder? && CartEnabled(s.db, k, c)
    requires s'.db == CartDb(s.db, k, c) && t in s.carts && s.carts[t] == k && s'.born == BornAfter(s, t, c)
    ensures CartOk(s', t, CartNext(s.db, k, c))
  {
    SameRequest(s.db, k, c);
    CartDbCases(s.db, k, c);
    if c.Proceeds? && CreateOrderWithItems(s.db, k.pc.draft.id, RowFor(k, k.pc.draft, s.db.now)).Ok? {
      InsertStepKept(s, s', t, k, k.pc.draft, c);
    }
  }

  /** A checkout that owns an order and does not write it still owns it. */
  lemma OwnsCarried(s: State, s': State, t: Tid, k: Cart, k': Cart, d: Draft)
    requires Owns(s, t, k, d) && s'.db == s.db && s'.born == s.born
    requires k'.request == k.request && k'.key == k.key && k'.hash == k.hash && k'.started == k.started
             && k'.mine == k.mine
    ensures Owns(s', t, k', d)
  {
    assert RowFor(k', d, s.born[d.id].row.createdAt) == RowFor(k, d, s.born[d.id].row.createdAt);
  }

  /** The two ways an attempt to store the session can go. */
  lemma PersistNext(db: Db, k: Cart, c: CartChoice)
    requires k.pc.Persist?
    ensures var d, x, k', db' := k.pc.draft, k.pc.session, CartNext(db, k, c), CartDb(db, k, c);
            if PersistWorks(db, d, x, c) then
              && k'.pc == Finished(Created(BuildCheckoutResult(d, k.request.mode, x)), db.now)
              && db' == UpdateOrderSession(db, d.id, x.id, x.url, x.clientSecret)
            else
              db' == db && (k'.pc == ExpireSession(d, x) || (k'.pc.Persist? && k'.pc.draft == d && k'.pc.session == x))
  {
  }

  lemma PersistLost(s: State, s': State, t: Tid, k: Cart, k': Cart, d: Draft, x: StripeSession)
    requires CartOk(s, t, k) && Owns(s, t, k, d) && x.id != "" && s'.db == s.db && s'.born == s.born
    requires k'.request == k.request && k'.key == k.key && k'.hash == k.hash && k'.started == k.started
             && k'.mine == k.mine
    requires k'.pc == ExpireSession(d, x) || (k'.pc.Persist? && k'.pc.draft == d && k'.pc.session == x)
    ensures CartOk(s', t, k')
  {
    OwnsCarried(s, s', t, k, k', d);
  }

  lemma PersistStepKept(s: State, s': State, t: Tid, k: Cart, c: CartChoice)
    requires OrdersOk(s) && CartOk(s, t, k) && k.pc.Persist?
    requires s'.db == CartDb(s.db, k, c) && s'.born == s.born
    ensures CartOk(s', t, CartNext(s.db, k, c))
  {
    var d, x, k' := k.pc.draft, k.pc.session, CartNext(s.db, k, c);
    SameRequest(s.db, k, c);
    PersistNext(s.db, k, c);
    if PersistWorks(s.db, d, x, c) {
      PersistWon(s, s', t, k, k', d, x);
    } else {
      PersistLost(s, s', t, k, k', d, x);
    }
  }

  lemma PersistWon(s: State, s': State, t: Tid, k: Cart, k': Cart, d: Draft, x: StripeSession)
    requires OrdersOk(s) && Owns(s, t, k, d) && x.id != "" && s'.born == s.born
    requires k.request.mode == HOSTED || k.request.mode == EMBEDDED
    requires s'.db == UpdateOrderSession(s.db, d.id, x.id, x.url, x.clientSecret)
    requires k'.key == k.key && k'.hash == k.hash && k'.started == k.started && k'.mine == k.mine
    ensures CreatedOk(s', k', BuildCheckoutResult(d, k.request.mode, x), s.db.now)
  {
    RowForHash(k, d, s.born[d.id].row.createdAt);
    PersistKept(s, s', t, k, d, x);
    CreatedCarried(s', k, k', BuildCheckoutResult(d, k.request.mode, x), s.db.now);
  }

  lemma CreatedCarried(s: State, k: Cart, k': Cart, r: CheckoutResult, at: Time)
    requires CreatedOk(s, k, r, at)
    requires k'.key == k.key && k'.hash == k.hash && k'.started == k.started && k'.mine == k.mine
    ensures CreatedOk(s, k', r, at)
  {
  }

  lemma LateStepKept(s: State, s': State, t: Tid, k: Cart, c: CartChoice)
    requires CartOk(s, t, k) && s'.db == CartDb(s.db, k, c) && s'.born == s.born && CartEnabled(s.db, k, c)
    requires k.pc.CreateSession? || k.pc.ExpireSession? || k.pc.Cancel?
    ensures CartOk(s', t, CartNext(s.db, k, c))
  {
    SameRequest(s.db, k, c);
    CartDbCases(s.db, k, c);
    if !k.pc.Cancel? {
      OwnsCarried(s, s', t, k, CartNext(s.db, k, c), k.pc.draft);
    }
  }

  /** The acting checkout knows the right things after its step. */
  lemma OwnCartKept(s: State, s': State, t: Tid, k: Cart, c: CartChoice)
    requires OrdersOk(s) && CartOk(s, t, k) && CartEnabled(s.db, k, c) && t in s.carts && s.carts[t] == k
    requires s'.db == CartDb(s.db, k, c) && s'.born == BornAfter(s, t, c)
    requires OrdersMove(s, s', Some(t)) && BirthsKept(s, s') && s.db.now <= s'.db.now
    ensures CartOk(s', t, CartNext(s.db, k, c))
  {
    CartDbCases(s.db, k, c);
    match k.pc {
      case Resolve(_) => ResolveStepKept(s, s', t, k, c);
      case Clear(_, _) => PriceStepKept(s, s', t, k, c);
      case Price => PriceStepKept(s, s', t, k, c);
      case RenewToken(_) => RenewStepKept(s, s', t, k, c);
      case InsertOrder(_) => InsertKeptAll(s, s', t, k, c);
      case Persist(_, _, _) => PersistStepKept(s, s', t, k, c);
      case CreateSession(_) => LateStepKept(s, s', t, k, c);
      case ExpireSession(_, _) => LateStepKept(s, s', t, k, c);
      case Cancel(_, _) => LateStepKept(s, s', t, k, c);
    }
  }

  lemma CartKept(s: State, t: Tid, c: CartChoice)
    requires OrdersOk(s) && EventsOk(s) && CartsOk(s) && Enabled(s, CartStep(t, c))
    ensures CartsOk(Step(s, CartStep(t, c)))
  {
    var s' := Step(s, CartStep(t, c));
    CartMoves(s, t, c);
    CartStepShape(s, t, c);
    CartKnown(s, t);
    OwnCartKept(s, s', t, s.carts[t], c);
    OtherCartsKept(s, s', t, CartNext(s.db, s.carts[t], c));
  }

  lemma OtherCartsKept(s: State, s': State, t: Tid, k': Cart)
    requires OrdersOk(s) && CartsOk(s) && Moves(s, s', Some(t)) && s'.carts == s.carts[t := k'] && CartOk(s', t, k')
    ensures CartsOk(s')
  {
    forall u | u in s'.carts
      ensures CartOk(s', u, s'.carts[u])
    {
      if u != t {
        CartStable(s, s', Some(t), u, s.carts[u]);
      }
    }
  }

  lemma NewCartOk(s: State, t: Tid, r: Request, key: string, parses: bool)
    requires ValidRequest(r, parses)
    ensures CartOk(s, t, NewCart(r, key, s.db.now))
  {
    CanonicalTextInjective(r, r);
  }

  lemma HashesKept(s: State, a: Action)
    requires HashesOk(s) && Enabled(s, a)
    ensures HashesOk(Step(s, a))
  {
    var s' := Step(s, a);
    forall t | t in s'.carts
      ensures HashOk(s'.carts[t])
    {
      if a.CartStep? && a.t == t {
        CartStepShape(s, t, a.cartChoice);
        SameRequest(s.db, s.carts[t], a.cartChoice);
        assert HashOk(s.carts[t]);
      } else {
        BystanderCarts(s, a, t);
        BystanderHash(s, t, s'.carts[t]);
      }
    }
  }

  lemma BystanderHash(s: State, t: Tid, k: Cart)
    requires HashesOk(s) && Bystander(s, t, k)
    ensures HashOk(k)
  {
    if t in s.carts {
      assert HashOk(s.carts[t]);
    }
  }

  /** Everyone else's steps leave what a checkout knows alone. */
  lemma CartsUndisturbed(s: State, s': State)
    requires OrdersOk(s) && CartsOk(s) && Moves(s, s', None) && s'.carts == s.carts
    ensures CartsOk(s')
  {
    forall t | t in s'.carts
      ensures CartOk(s', t, s'.carts[t])
    {
      CartStable(s, s', None, t, s.carts[t]);
    }
  }

  /** A checkout is added or dies; the tables stay as they are. */
  lemma OneCartSet(s: State, s': State, t: Tid, k: Cart)
    requires CartsOk(s) && s'.db == s.db && s'.born == s.born && s'.carts == s.carts[t := k] && CartOk(s', t, k)
    ensures CartsOk(s')
  {
    forall u | u in s'.carts
      ensures CartOk(s', u, s'.carts[u])
    {
      if u != t {
        CartFrame(s, s', u, s.carts[u]);
      }
    }
  }

  lemma CartFrame(s: State, s': State, t: Tid, k: Cart)
    requires CartOk(s, t, k) && s'.db == s.db && s'.born == s.born
    ensures CartOk(s', t, k)
  {
  }

  lemma CartsKeptByArrival(s: State, t: Tid, r: Request, key: string, parses: bool)
    requires CartsOk(s) && Enabled(s, Submit(t, r, key, parses))
    ensures CartsOk(Step(s, Submit(t, r, key, parses)))
  {
    var s' := Step(s, Submit(t, r, key, parses));
    NewCartOk(s', t, r, key, parses);
    OneCartSet(s, s', t, NewCart(r, key, s.db.now));
  }

  lemma CartsKeptByCrash(s: State, t: Tid)
    requires CartsOk(s) && Enabled(s, CartCrash(t))
    ensures CartsOk(Step(s, CartCrash(t)))
  {
    CartKnown(s, t);
    OneCartSet(s, Step(s, CartCrash(t)), t, s.carts[t].(pc := Died));
  }

  lemma CutCartOk(s: State, t: Tid, k: Cart)
    requires CartOk(s, t, k) && CartRunning(k)
    ensures CartOk(s, t, k.(cut := true))
  {
    if k.pc.CreateSession? || k.pc.Persist? || k.pc.ExpireSession? || k.pc.Cancel? {
      OwnsCarried(s, s, t, k, k.(cut := true), k.pc.draft);
    }
  }

  lemma CartsKeptByCut(s: State, t: Tid)
    requires CartsOk(s) && Enabled(s, CartCut(t))
    ensures CartsOk(Step(s, CartCut(t)))
  {
    CartKnown(s, t);
    CutCartOk(s, t, s.carts[t]);
    CartFrame(s, Step(s, CartCut(t)), t, s.carts[t].(cut := true));
    OneCartSet(s, Step(s, CartCut(t)), t, s.carts[t].(cut := true));
  }

  lemma CartsKept(s: State, a: Action)
    requires OrdersOk(s) && EventsOk(s) && HooksOk(s) && CartsOk(s) && Enabled(s, a)
    ensures CartsOk(Step(s, a))
  {
    match a {
      case CartStep(t, c) => CartKept(s, t, c);
      case Submit(t, r, key, parses) => CartsKeptByArrival(s, t, r, key, parses);
      case CartCut(t) => CartsKeptByCut(s, t);
      case CartCrash(t) => CartsKeptByCrash(s, t);
      case _ =>
        StepMoves(s, a);
        CartsUndisturbed(s, Step(s, a));
    }
  }

  // ---- All together ----------------------------------------------------------------

  /** Every action of every handler, checkout, sweep and clock keeps the global invariant. */
  lemma StepInv(s: State, a: Action)
    requires Inv(s) && Enabled(s, a)
    ensures Inv(Step(s, a))
  {
    if a.CartStep? && Inserts(s, a.t, a.cartChoice) {
      OrdersKeptByInsert(s, Step(s, a), a.t, a.cartChoice);
    } else {
      OrdersKept(s, a);
    }
    UniqueKept(s, a);
    PricedKept(s, a);
    EventsKept(s, a);
    CausesKept(s, a);
    HooksKept(s, a);
    CartsKept(s, a);
  }
}
