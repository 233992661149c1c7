/** What the order table records: distinct numbers, and metadata that are those of the
    request, its hash, and the reason for a cancellation. */
module RecordTheorems {
  import opened Domain
  import opened Canonical
  import opened Tables
  import opened WebhookProgram
  import opened CheckoutProgram
  import opened Protocol
  import opened Rows
  import opened Invariants
  import opened Moving
  import opened TableInvariants
  import opened Runs
  import opened SagaTheorems
  import ThreadInvariants

  // ---- Numbers -----------------------------------------------------------------------

  ghost predicate NumbersUnique(orders: map<OrderId, Order>) {
    forall a, b :: a in orders && b in orders && orders[a].number == orders[b].number ==> a == b
  }

  lemma NumbersKept(s: State, s': State, actor: Option<Tid>)
    requires NumbersUnique(s.db.orders) && OrdersMove(s, s', actor)
    requires forall id :: id in s'.db.orders ==> id in s.db.orders
    ensures NumbersUnique(s'.db.orders)
  {
    forall a, b | a in s'.db.orders && b in s'.db.orders && s'.db.orders[a].number == s'.db.orders[b].number
      ensures a == b
    {
      assert s.db.orders[a].number == s'.db.orders[a].number && s.db.orders[b].number == s'.db.orders[b].number;
    }
  }

  lemma NumbersKeptByInsert(db: Db, id: OrderId, row: Order)
    requires NumbersUnique(db.orders) && CreateOrderWithItems(db, id, row).Ok?
    ensures NumbersUnique(CreateOrderWithItems(db, id, row).value.orders)
  {
  }

  lemma NumbersKeptByStep(s: State, a: Action)
    requires OrdersOk(s) && EventsOk(s) && HooksOk(s) && CartsOk(s) && NumbersUnique(s.db.orders) && Enabled(s, a)
    ensures NumbersUnique(Step(s, a).db.orders)
  {
    if a.CartStep? && Inserts(s, a.t, a.cartChoice) {
      CartStepShape(s, a.t, a.cartChoice);
      NumbersKeptByInsert(s.db, s.carts[a.t].pc.draft.id, RowFor(s.carts[a.t], s.carts[a.t].pc.draft, s.db.now));
    } else {
      StepMoves(s, a);
      DomainKept(s, a);
      NumbersKept(s, Step(s, a), Actor(a));
    }
  }

  /** No two orders ever have the same number. */
  lemma {:induction false} NumbersAreUnique(tr: seq<State>, acts: seq<Action>, i: nat)
    requires Run(tr, acts) && i < |tr|
    ensures NumbersUnique(tr[i].db.orders)
  {
    if i > 0 {
      NumbersAreUnique(tr, acts, i - 1);
      RunInv(tr, acts, i - 1);
      assert StepAt(tr, acts, i - 1);
      NumbersKeptByStep(tr[i - 1], acts[i - 1]);
    }
  }

  // ---- Metadata ----------------------------------------------------------------------

  lemma HookMetadata(db: Db, p: Payload, h: Hook, c: HookChoice, id: OrderId)
    requires id in db.orders && id in HookDb(db, p, h, c).orders
    ensures HookDb(db, p, h, c).orders[id].metadata == db.orders[id].metadata
  {
    if h.pc.Complete? && CompleteTx(db, h.pc.completion).Ok? {
      CommitEffect(db, h.pc.completion);
    }
  }

  lemma CartMetadata(db: Db, k: Cart, c: CartChoice, id: OrderId)
    requires id in db.orders && id in CartDb(db, k, c).orders
    ensures || CartDb(db, k, c).orders[id].metadata == db.orders[id].metadata
            || (!c.Fault? && k.pc.Cancel? && k.pc.draft.id == id
                && CartDb(db, k, c).orders[id].metadata == db.orders[id].metadata["cancel_reason" := k.pc.reason])
  {
    CartDbCases(db, k, c);
    if k.pc.InsertOrder? && CreateOrderWithItems(db, k.pc.draft.id, RowFor(k, k.pc.draft, db.now)).Ok? {
      InsertEffect(db, k.pc.draft.id, RowFor(k, k.pc.draft, db.now));
    }
  }

  /** The reason recorded by a checkout that has canceled its order. */
  function CancelReason(k: Cart): string {
    if k.pc.Finished? && k.pc.reply == Refused(StripeFailed) then "stripe_api_error" else "persist_failed"
  }

  /** The metadata an order was inserted with, and the reason for its cancellation. */
  ghost predicate WhyOk(s: State, id: OrderId) {
    && id in s.db.orders && id in s.born
    && var row, first := s.db.orders[id], s.born[id].row;
       row.metadata ==
       if CreatorCanceled(s, id) then first.metadata["cancel_reason" := CancelReason(s.carts[s.born[id].creator])]
       else if row.status == Canceled then first.metadata["cancel_reason" := "stale_checkout"]
       else first.metadata
  }

  ghost predicate WhysOk(s: State) {
    forall id :: id in s.db.orders ==> WhyOk(s, id)
  }

  lemma Overwritten(m: map<string, string>, k: string, a: string, b: string)
    ensures m[k := a][k := b] == m[k := b]
  {
  }

  /** A checkout that has canceled its order is finished and stays as it is. */
  lemma CancelerStays(s: State, a: Action, t: Tid)
    requires Enabled(s, a) && SagasOk(s) && t in s.carts && CancelTry(true) in s.carts[t].calls
    ensures t in Step(s, a).carts && Step(s, a).carts[t] == s.carts[t] && !(a.CartStep? && a.t == t)
  {
    assert SagaOk(s, t, s.carts[t]);
    if CartRunning(s.carts[t]) {
      RunningHasNotCanceled(s.carts[t]);
    }
    CartsStay(s, a, t);
    BystanderCarts(s, a, t);
  }

  /** How a checkout comes to have canceled its order. */
  lemma BecomesCanceler(s: State, a: Action, t: Tid)
    requires Enabled(s, a) && SagasOk(s) && t in s.carts && CancelTry(true) !in s.carts[t].calls
    requires t in Step(s, a).carts && CancelTry(true) in Step(s, a).carts[t].calls
    ensures a.CartStep? && a.t == t && s.carts[t].pc.Cancel? && !a.cartChoice.Fault?
  {
    assert SagaOk(s, t, s.carts[t]);
    if a.CartStep? && a.t == t {
      CartStepShape(s, t, a.cartChoice);
      if s.carts[t].pc.Cancel? {
        assert CartNext(s.db, s.carts[t], a.cartChoice).calls == s.carts[t].calls + [CancelTry(!a.cartChoice.Fault?)];
      } else {
        OnlyCancelCancels(s.db, s.carts[t], a.cartChoice);
      }
    } else {
      BystanderCarts(s, a, t);
    }
  }

  /** The step is the creator's cancellation, and it works. */
  ghost predicate CancelsOwn(s: State, a: Action, id: OrderId) {
    && a.CartStep? && a.t in s.carts && s.carts[a.t].pc.Cancel? && !a.cartChoice.Fault?
    && s.carts[a.t].pc.draft.id == id
  }

  lemma CanceledMetadata(first: map<string, string>, before: map<string, string>, after: map<string, string>,
      reason: string)
    requires before == first || before == first["cancel_reason" := "stale_checkout"]
    requires after == before["cancel_reason" := reason]
    ensures after == first["cancel_reason" := reason]
  {
    Overwritten(first, "cancel_reason", "stale_checkout", reason);
  }

  lemma OwnNotCanceledYet(s: State, t: Tid, id: OrderId)
    requires CartsOk(s) && SagasOk(s) && WhysOk(s)
    requires t in s.carts && s.carts[t].pc.Cancel? && s.carts[t].pc.draft.id == id
    ensures id in s.db.orders && id in s.born && s.born[id].creator == t && !CreatorCanceled(s, id)
    ensures var before, first := s.db.orders[id].metadata, s.born[id].row.metadata;
            before == first || before == first["cancel_reason" := "stale_checkout"]
  {
    CartKnown(s, t);
    assert SagaOk(s, t, s.carts[t]);
    RunningHasNotCanceled(s.carts[t]);
    assert WhyOk(s, id);
  }

  lemma CancelWhy(s: State, t: Tid, c: CartChoice)
    requires CartsOk(s) && SagasOk(s) && WhysOk(s) && Enabled(s, CartStep(t, c))
    requires s.carts[t].pc.Cancel? && !c.Fault?
    ensures WhyOk(Step(s, CartStep(t, c)), s.carts[t].pc.draft.id)
  {
    var k, id := s.carts[t], s.carts[t].pc.draft.id;
    CartStepShape(s, t, c);
    OwnNotCanceledYet(s, t, id);
    assert SagaOk(s, t, k);
    CancelNext(s.db, k, c);
    CanceledMetadata(s.born[id].row.metadata, s.db.orders[id].metadata,
                     CartDb(s.db, k, c).orders[id].metadata, k.pc.reason);
  }

  lemma CancelNext(db: Db, k: Cart, c: CartChoice)
    requires CallsOk(k) && CartEnabled(db, k, c) && k.pc.Cancel? && !c.Fault? && k.pc.draft.id in db.orders
    ensures var k' := CartNext(db, k, c);
            && CancelTry(true) in k'.calls && CancelReason(k') == k.pc.reason
            && CartDb(db, k, c).orders[k.pc.draft.id].metadata
               == db.orders[k.pc.draft.id].metadata["cancel_reason" := k.pc.reason]
  {
    ReasonsDiffer();
    assert CartNext(db, k, c).calls == k.calls + [CancelTry(true)];
  }

  /** What any other step does to status and metadata together. */
  ghost predicate OtherMoves(before: Order, after: Order) {
    || (after.metadata == before.metadata && (after.status == Canceled <==> before.status == Canceled))
    || (before.status != Canceled && after.status == Canceled
        && after.metadata == before.metadata["cancel_reason" := "stale_checkout"])
  }

  lemma HookMovesRow(db: Db, p: Payload, h: Hook, c: HookChoice, id: OrderId)
    requires HookOk(db, p, h) && id in db.orders && id in HookDb(db, p, h, c).orders
    requires db.orders[id].status == Canceled ==> HookDb(db, p, h, c).orders[id].status == Canceled
    ensures OtherMoves(db.orders[id], HookDb(db, p, h, c).orders[id])
  {
    HookMetadata(db, p, h, c, id);
    if HookDb(db, p, h, c).orders[id].status == Canceled {
      HookNeverCancels(db, p, h, c, id);
    }
  }

  lemma CartMovesRow(db: Db, k: Cart, c: CartChoice, id: OrderId)
    requires id in db.orders && id in CartDb(db, k, c).orders && CartEnabled(db, k, c)
    requires db.orders[id].status == Canceled ==> CartDb(db, k, c).orders[id].status == Canceled
    requires !(k.pc.Cancel? && !c.Fault? && k.pc.draft.id == id)
    ensures OtherMoves(db.orders[id], CartDb(db, k, c).orders[id])
  {
    CartMetadata(db, k, c, id);
    CartDbCases(db, k, c);
    if CartDb(db, k, c).orders[id].status == Canceled && db.orders[id].status != Canceled {
      CartCancels(db, k, c, id);
    }
  }

  lemma OtherRow(s: State, a: Action, id: OrderId)
    requires HooksOk(s) && Enabled(s, a) && !CancelsOwn(s, a, id)
    requires id in s.db.orders && id in Step(s, a).db.orders
    requires s.db.orders[id].status == Canceled ==> Step(s, a).db.orders[id].status == Canceled
    ensures OtherMoves(s.db.orders[id], Step(s, a).db.orders[id])
  {
    match a {
      case HookStep(t, c) =>
        HookStepShape(s, t, c);
        HookKnown(s, t);
        HookMovesRow(s.db, s.payloads[s.hooks[t].event], s.hooks[t], c, id);
      case CartStep(t, c) =>
        CartStepShape(s, t, c);
        CartMovesRow(s.db, s.carts[t], c, id);
      case _ =>
    }
  }

  lemma WhyCarried(s: State, s': State, id: OrderId)
    requires WhyOk(s, id) && id in s'.db.orders && id in s'.born && s'.born[id] == s.born[id]
    requires OtherMoves(s.db.orders[id], s'.db.orders[id])
    requires CreatorCanceled(s', id) <==> CreatorCanceled(s, id)
    requires CreatorCanceled(s, id) ==>
               s.db.orders[id].status == Canceled && s'.carts[s.born[id].creator] == s.carts[s.born[id].creator]
    ensures WhyOk(s', id)
  {
  }

  lemma RowRemains(s: State, a: Action, id: OrderId)
    requires OrdersOk(s) && EventsOk(s) && HooksOk(s) && CartsOk(s) && Enabled(s, a) && id in s.db.orders
    ensures id in Step(s, a).db.orders && id in s.born && id in Step(s, a).born && Step(s, a).born[id] == s.born[id]
    ensures s.db.orders[id].status == Canceled ==> Step(s, a).db.orders[id].status == Canceled
  {
    StepMoves(s, a);
  }

  lemma CancelerRemains(s: State, a: Action, id: OrderId)
    requires CreatorsOk(s) && SagasOk(s) && Enabled(s, a) && CreatorCanceled(s, id)
    ensures IsCanceled(s, id) && s.born[id].creator in Step(s, a).carts
    ensures Step(s, a).carts[s.born[id].creator] == s.carts[s.born[id].creator]
  {
    CancelerStays(s, a, s.born[id].creator);
    CreatorCanceledState(s, id);
  }

  /** An order whose creator does not cancel it in this step. */
  lemma OtherWhy(s: State, a: Action, id: OrderId)
    requires OrdersOk(s) && EventsOk(s) && HooksOk(s) && CartsOk(s) && SagasOk(s) && CreatorsOk(s) && WhysOk(s)
    requires Enabled(s, a) && id in s.db.orders && !CancelsOwn(s, a, id)
    ensures WhyOk(Step(s, a), id)
  {
    RowRemains(s, a, id);
    OtherRow(s, a, id);
    SameCanceler(s, a, id);
    if CreatorCanceled(s, id) {
      CancelerRemains(s, a, id);
    }
    WhyCarried(s, Step(s, a), id);
  }

  lemma SameCanceler(s: State, a: Action, id: OrderId)
    requires CartsOk(s) && SagasOk(s) && CreatorsOk(s) && Enabled(s, a) && id in s.born && !CancelsOwn(s, a, id)
    requires id in Step(s, a).born && Step(s, a).born[id] == s.born[id]
    ensures CreatorCanceled(Step(s, a), id) <==> CreatorCanceled(s, id)
  {
    var t := s.born[id].creator;
    assert CreatorOk(s, id, s.born[id]);
    CartsStay(s, a, t);
    if CreatorCanceled(s, id) {
      CancelerStays(s, a, t);
    } else if CancelTry(true) in Step(s, a).carts[t].calls {
      BecomesCanceler(s, a, t);
      CartKnown(s, t);
    }
  }

  lemma NewWhy(s: State, t: Tid, c: CartChoice, id: OrderId)
    requires OrdersOk(s) && SagasOk(s) && Enabled(s, CartStep(t, c)) && Inserts(s, t, c) && id == s.carts[t].pc.draft.id
    ensures WhyOk(Step(s, CartStep(t, c)), id)
  {
    CartStepShape(s, t, c);
    BirthsGrow(s, t, c);
    InsertEffect(s.db, id, RowFor(s.carts[t], s.carts[t].pc.draft, s.db.now));
    assert SagaOk(s, t, s.carts[t]);
    OnlyCancelCancels(s.db, s.carts[t], c);
  }

  lemma WhysKept(s: State, a: Action)
    requires OrdersOk(s) && EventsOk(s) && HooksOk(s) && CartsOk(s) && SagasOk(s) && CreatorsOk(s) && WhysOk(s)
    requires Enabled(s, a)
    ensures WhysOk(Step(s, a))
  {
    forall id | id in Step(s, a).db.orders
      ensures WhyOk(Step(s, a), id)
    {
      if id in s.db.orders {
        if CancelsOwn(s, a, id) {
          CancelWhy(s, a.t, a.cartChoice);
        } else {
          OtherWhy(s, a, id);
        }
      } else {
        NewRowInserted(s, a, id);
        NewWhy(s, a.t, a.cartChoice, id);
      }
    }
  }

  lemma NewRowInserted(s: State, a: Action, id: OrderId)
    requires OrdersOk(s) && Enabled(s, a) && id in Step(s, a).db.orders && id !in s.db.orders
    ensures a.CartStep? && Inserts(s, a.t, a.cartChoice) && id == s.carts[a.t].pc.draft.id
  {
    if !(a.CartStep? && Inserts(s, a.t, a.cartChoice)) {
      DomainKept(s, a);
    } else {
      CartStepShape(s, a.t, a.cartChoice);
      BirthsGrow(s, a.t, a.cartChoice);
    }
  }

  lemma {:induction false} RunWhys(tr: seq<State>, acts: seq<Action>, i: nat)
    requires Run(tr, acts) && i < |tr|
    ensures WhysOk(tr[i])
  {
    if i > 0 {
      RunWhys(tr, acts, i - 1);
      RunInv(tr, acts, i - 1);
      RunSagas(tr, acts, i - 1);
      RunCreators(tr, acts, i - 1);
      assert StepAt(tr, acts, i - 1);
      WhysKept(tr[i - 1], acts[i - 1]);
    }
  }

  /** In every reachable state the metadata of an order are those of the request that
      created it, with the hash of that request, and with the reason for the cancellation
      exactly if it is canceled: the checkout's own if that canceled it, the sweep's if not. */
  lemma MetadataSayWhy(tr: seq<State>, acts: seq<Action>, i: nat, id: OrderId)
    requires Run(tr, acts) && i < |tr| && id in tr[i].db.orders
    ensures id in tr[i].born && tr[i].born[id].creator in tr[i].carts
    ensures var row, k := tr[i].db.orders[id], tr[i].carts[tr[i].born[id].creator];
            var own := k.request.metadata["_request_body_hash" := CanonicalText(k.request)];
            row.metadata ==
            if CreatorCanceled(tr[i], id) then own["cancel_reason" := CancelReason(k)]
            else if row.status == Canceled then own["cancel_reason" := "stale_checkout"]
            else own
  {
    RunWhys(tr, acts, i);
    RunCreators(tr, acts, i);
    RunHashes(tr, acts, i);
    assert WhyOk(tr[i], id) && CreatorOk(tr[i], id, tr[i].born[id]);
    assert HashOk(tr[i].carts[tr[i].born[id].creator]);
  }
}
