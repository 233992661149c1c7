/** What a checkout is told: a lost insert race leads back to the key, a refusal for a taken
    key has its reasons, and the token in a reply is the one that opens the order. */
module ReplyTheorems {
  import opened Domain
  import opened Tables
  import opened WebhookProgram
  import opened CheckoutProgram
  import opened Protocol
  import opened Invariants
  import opened Moving
  import opened Runs
  import opened SagaTheorems
  import opened CheckoutTheorems
  import opened StepTheorems

  // ---- The insert race ---------------------------------------------------------------

  ghost predicate KeyHeld(db: Db, key: string) {
    exists other :: other in db.orders && db.orders[other].key == Some(key)
  }

  /** A checkout whose fault-free insert meets another order with its key goes back to the
      key. */
  lemma LostInsertGoesBack(tr: seq<State>, acts: seq<Action>, i: nat, t: Tid)
    requires Run(tr, acts) && i < |acts| && acts[i] == CartStep(t, Proceeds)
    requires t in tr[i].carts && tr[i].carts[t].pc.InsertOrder? && tr[i].carts[t].pc.draft.total > 0
    requires tr[i].carts[t].key != "" && KeyHeld(tr[i].db, tr[i].carts[t].key)
    ensures t in tr[i + 1].carts && tr[i + 1].carts[t].pc == Resolve(true) && tr[i + 1].db == tr[i].db
  {
    CheckoutStepExactly(tr, acts, i, t, Proceeds);
    var other :| other in tr[i].db.orders && tr[i].db.orders[other].key == Some(tr[i].carts[t].key);
    assert Taken(tr[i].db, tr[i].carts[t], tr[i].carts[t].pc.draft);
  }

  /** Two more fault-free steps end the race: with the answer the live order of the same
      request has, with a conflict exactly for a different request, or with "in progress"
      exactly while there is no session. */
  lemma LostRaceEnds(tr: seq<State>, acts: seq<Action>, j: nat, m: nat, t: Tid, id: OrderId, token: string)
    requires Run(tr, acts) && j < m < |acts| && acts[j] == CartStep(t, KeyLookup(Some(id)))
    requires t in tr[j].carts && tr[j].carts[t].pc == Resolve(true)
    requires id in tr[j].db.orders && tr[j].db.orders[id].status != Canceled
    requires t in tr[j + 1].carts && t in tr[m].carts && tr[m].carts[t].pc == tr[j + 1].carts[t].pc
    requires tr[m].carts[t].pc.RenewToken? ==> acts[m] == CartStep(t, NewToken(token))
    ensures id in tr[j].born && tr[j].born[id].creator in tr[j].carts && t in tr[m + 1].carts && id in tr[m].db.orders
    ensures var row, pc := tr[j].db.orders[id], tr[j + 1].carts[t].pc;
            var same := tr[j].carts[tr[j].born[id].creator].request == tr[j].carts[t].request;
            && (pc == Finished(Refused(IdempotencyConflict), tr[j].db.now) <==> !same)
            && (pc == Finished(Refused(CheckoutInProgress), tr[j].db.now) <==> same && row.sessionId == None)
            && (same && row.sessionId.Some? ==>
                  && tr[m + 1].carts[t].pc.Finished? && tr[m + 1].carts[t].pc.reply.Replayed?
                  && ShowsRow(tr[m + 1].carts[t].pc.reply.result, id, tr[m].db.orders[id], token))
  {
    LookupDecides(tr, acts, j, t, id);
    OrderEvolves(tr, acts, j, m, id);
    RunStaysPresent(tr, acts, m, t);
    var same := tr[j].carts[tr[j].born[id].creator].request == tr[j].carts[t].request;
    if same && tr[j].db.orders[id].sessionId.Some? {
      CheckoutStepExactly(tr, acts, m, t, NewToken(token));
    }
  }

  lemma RunStaysPresent(tr: seq<State>, acts: seq<Action>, i: nat, t: Tid)
    requires Run(tr, acts) && i < |acts| && t in tr[i].carts
    ensures t in tr[i + 1].carts
  {
    assert StepAt(tr, acts, i);
    CartsStay(tr[i], acts[i], t);
  }

  // ---- Refusals with a unique violation ----------------------------------------------

  /** Step `m` is an insert that meets another order's id, number or key. */
  ghost predicate CollidesAt(tr: seq<State>, acts: seq<Action>, m: nat, t: Tid)
    requires m < |acts| && |tr| == |acts| + 1
  {
    && acts[m] == CartStep(t, Proceeds) && t in tr[m].carts && tr[m].carts[t].pc.InsertOrder?
    && Taken(tr[m].db, tr[m].carts[t], tr[m].carts[t].pc.draft)
  }

  /** Step `l` is a second lookup that finds the key free, or its order canceled. */
  ghost predicate FreeAt(tr: seq<State>, acts: seq<Action>, l: nat, t: Tid)
    requires l < |acts| && |tr| == |acts| + 1
  {
    && acts[l].CartStep? && acts[l].t == t && acts[l].cartChoice.KeyLookup?
    && t in tr[l].carts && tr[l].carts[t].pc == Resolve(true)
    && (acts[l].cartChoice.pick == None
        || (acts[l].cartChoice.pick.value in tr[l].db.orders
            && tr[l].db.orders[acts[l].cartChoice.pick.value].status == Canceled))
  }

  ghost predicate CollidedBefore(tr: seq<State>, acts: seq<Action>, i: nat, t: Tid)
    requires i < |tr| && |tr| == |acts| + 1
  {
    exists m :: 0 <= m < i && CollidesAt(tr, acts, m, t)
  }

  ghost predicate FreedBefore(tr: seq<State>, acts: seq<Action>, i: nat, t: Tid)
    requires i < |tr| && |tr| == |acts| + 1
  {
    exists l :: 0 <= l < i && FreeAt(tr, acts, l, t) && CollidedBefore(tr, acts, l, t)
  }

  predicate RefusedAsTaken(k: Cart) {
    k.pc.Finished? && k.pc.reply == Refused(InsertFailed(UniqueViolation))
  }

  ghost predicate Explained(tr: seq<State>, acts: seq<Action>, i: nat, t: Tid)
    requires i < |tr| && |tr| == |acts| + 1
  {
    t in tr[i].carts ==>
      var k := tr[i].carts[t];
      && (k.pc == Resolve(true) ==> CollidedBefore(tr, acts, i, t))
      && (k.pc.Clear? && k.pc.second ==> FreedBefore(tr, acts, i, t))
      && (RefusedAsTaken(k) ==> if k.key == "" then CollidedBefore(tr, acts, i, t) else FreedBefore(tr, acts, i, t))
  }

  lemma ExplainedByStep(tr: seq<State>, acts: seq<Action>, i: nat, t: Tid, c: CartChoice)
    requires Run(tr, acts) && i < |acts| && acts[i] == CartStep(t, c) && Explained(tr, acts, i, t)
    ensures Explained(tr, acts, i + 1, t)
  {
    CheckoutStepExactly(tr, acts, i, t, c);
    var k := tr[i].carts[t];
    if k.pc.InsertOrder? && c.Proceeds? && Taken(tr[i].db, k, k.pc.draft) {
      StepFinds(tr, acts, i, t, c);
      assert CollidesAt(tr, acts, i, t);
    }
    if k.pc == Resolve(true) && c.KeyLookup? {
      if c.pick == None || tr[i].db.orders[c.pick.value].status == Canceled {
        assert FreeAt(tr, acts, i, t);
      }
    }
    ChoiceFits(tr, acts, i, t, c);
  }

  /** What the environment may decide at each step. */
  lemma ChoiceFits(tr: seq<State>, acts: seq<Action>, i: nat, t: Tid, c: CartChoice)
    requires Run(tr, acts) && i < |acts| && acts[i] == CartStep(t, c)
    ensures t in tr[i].carts && (tr[i].carts[t].pc.InsertOrder? && !c.Fault? ==> c.Proceeds?)
  {
    assert StepAt(tr, acts, i);
  }

  lemma StepFinds(tr: seq<State>, acts: seq<Action>, i: nat, t: Tid, c: CartChoice)
    requires Run(tr, acts) && i < |acts| && acts[i] == CartStep(t, c)
    ensures t in tr[i].carts
  {
    assert StepAt(tr, acts, i);
  }

  lemma ExplainedByOthers(tr: seq<State>, acts: seq<Action>, i: nat, t: Tid)
    requires Run(tr, acts) && i < |acts| && Explained(tr, acts, i, t)
    requires !(acts[i].CartStep? && acts[i].t == t)
    ensures Explained(tr, acts, i + 1, t)
  {
    assert StepAt(tr, acts, i);
    if t in tr[i + 1].carts {
      BystanderCarts(tr[i], acts[i], t);
      if t !in tr[i].carts {
        NewcomerPc(tr, acts, i, t);
      }
    }
  }

  lemma NewcomerPc(tr: seq<State>, acts: seq<Action>, i: nat, t: Tid)
    requires Run(tr, acts) && i < |acts| && t !in tr[i].carts && t in tr[i + 1].carts
    ensures tr[i + 1].carts[t].pc in {Price, Resolve(false)}
  {
    assert StepAt(tr, acts, i);
  }

  lemma {:induction false} RunExplained(tr: seq<State>, acts: seq<Action>, i: nat, t: Tid)
    requires Run(tr, acts) && i < |tr|
    ensures Explained(tr, acts, i, t)
  {
    if i > 0 {
      RunExplained(tr, acts, i - 1, t);
      if acts[i - 1].CartStep? && acts[i - 1].t == t {
        ExplainedByStep(tr, acts, i - 1, t, acts[i - 1].cartChoice);
      } else {
        ExplainedByOthers(tr, acts, i - 1, t);
      }
    }
  }

  /** A request with a key is refused with a unique violation only after its insert has met
      another order's id, number or key, and a later lookup has found the key free or its
      order canceled; a request without a key only after such an insert. */
  lemma RefusedAsTakenMeans(tr: seq<State>, acts: seq<Action>, i: nat, t: Tid)
    requires Run(tr, acts) && i < |tr| && t in tr[i].carts && RefusedAsTaken(tr[i].carts[t])
    ensures if tr[i].carts[t].key == "" then CollidedBefore(tr, acts, i, t) else FreedBefore(tr, acts, i, t)
  {
    RunExplained(tr, acts, i, t);
  }

  // ---- Access tokens -----------------------------------------------------------------

  /** What a step does to the token of an order: nothing, unless it is the replay of it. */
  ghost predicate TokenMoves(s: State, a: Action, before: Order, after: Order, id: OrderId) {
    || after.tokenHash == before.tokenHash
    || (a.CartStep? && a.t in s.carts && a.cartChoice.NewToken? && s.carts[a.t].pc.RenewToken?
        && s.carts[a.t].pc.found.id == id && after.tokenHash == Some(a.cartChoice.token))
  }

  lemma HookToken(db: Db, p: Payload, h: Hook, c: HookChoice, id: OrderId)
    requires id in db.orders && id in HookDb(db, p, h, c).orders
    ensures HookDb(db, p, h, c).orders[id].tokenHash == db.orders[id].tokenHash
  {
    if h.pc.Complete? && CompleteTx(db, h.pc.completion).Ok? {
      CommitEffect(db, h.pc.completion);
    }
  }

  lemma CartToken(db: Db, k: Cart, c: CartChoice, id: OrderId)
    requires id in db.orders && id in CartDb(db, k, c).orders && CartEnabled(db, k, c)
    ensures || CartDb(db, k, c).orders[id].tokenHash == db.orders[id].tokenHash
            || (c.NewToken? && k.pc.RenewToken? && k.pc.found.id == id
                && CartDb(db, k, c).orders[id].tokenHash == Some(c.token))
  {
    CartDbCases(db, k, c);
    if k.pc.InsertOrder? && CreateOrderWithItems(db, k.pc.draft.id, RowFor(k, k.pc.draft, db.now)).Ok? {
      InsertEffect(db, k.pc.draft.id, RowFor(k, k.pc.draft, db.now));
    }
  }

  lemma StepToken(s: State, a: Action, id: OrderId)
    requires Enabled(s, a) && id in s.db.orders && id in Step(s, a).db.orders
    ensures TokenMoves(s, a, s.db.orders[id], Step(s, a).db.orders[id], id)
  {
    match a {
      case HookStep(t, c) =>
        HookStepShape(s, t, c);
        HookToken(s.db, s.payloads[s.hooks[t].event], s.hooks[t], c, id);
      case CartStep(t, c) =>
        CartStepShape(s, t, c);
        CartToken(s.db, s.carts[t], c, id);
      case _ =>
    }
  }

  /** Before its session is stored, the order of a checkout has the token drawn for it. */
  ghost predicate TokenOk(orders: map<OrderId, Order>, k: Cart) {
    match k.pc
    case InsertOrder(d) => d.token != ""
    case CreateSession(d) => d.token != "" && d.id in orders && orders[d.id].tokenHash == Some(d.token)
    case Persist(d, _, _) => d.token != "" && d.id in orders && orders[d.id].tokenHash == Some(d.token)
    case _ => true
  }

  ghost predicate TokensOk(s: State) {
    forall t :: t in s.carts ==> TokenOk(s.db.orders, s.carts[t])
  }

  lemma ActorToken(s: State, t: Tid, k: Cart, c: CartChoice)
    requires CartOk(s, t, k) && CartEnabled(s.db, k, c) && TokenOk(s.db.orders, k)
    ensures TokenOk(CartDb(s.db, k, c).orders, CartNext(s.db, k, c))
  {
    CartDbCases(s.db, k, c);
    if k.pc.InsertOrder? && c.Proceeds?
       && CreateOrderWithItems(s.db, k.pc.draft.id, RowFor(k, k.pc.draft, s.db.now)).Ok?
    {
      InsertEffect(s.db, k.pc.draft.id, RowFor(k, k.pc.draft, s.db.now));
    }
  }

  /** Nobody replays an order that has no session yet. */
  lemma NoReplayWithoutSession(s: State, t: Tid)
    requires CartsOk(s) && t in s.carts && s.carts[t].pc.RenewToken?
    ensures var id := s.carts[t].pc.found.id; id in s.db.orders && s.db.orders[id].sessionId.Some?
  {
    assert CartOk(s, t, s.carts[t]);
  }

  lemma OwnSessionless(s: State, t: Tid)
    requires CartsOk(s) && t in s.carts && (s.carts[t].pc.CreateSession? || s.carts[t].pc.Persist?)
    ensures var d := s.carts[t].pc.draft; d.id in s.db.orders && s.db.orders[d.id].sessionId == None
  {
    assert CartOk(s, t, s.carts[t]);
  }

  lemma BystanderToken(s: State, a: Action, t: Tid)
    requires OrdersOk(s) && EventsOk(s) && HooksOk(s) && CartsOk(s) && TokensOk(s) && Enabled(s, a)
    requires t in s.carts && (s.carts[t].pc.CreateSession? || s.carts[t].pc.Persist?)
    requires !(a.CartStep? && a.t == t)
    ensures TokenOk(Step(s, a).db.orders, s.carts[t])
  {
    var id := s.carts[t].pc.draft.id;
    OwnSessionless(s, t);
    StepMoves(s, a);
    StepToken(s, a, id);
    if a.CartStep? && s.carts[a.t].pc.RenewToken? {
      NoReplayWithoutSession(s, a.t);
    }
    assert TokenOk(s.db.orders, s.carts[t]);
  }

  lemma OtherToken(s: State, a: Action, t: Tid, k: Cart)
    requires OrdersOk(s) && EventsOk(s) && HooksOk(s) && CartsOk(s) && TokensOk(s) && Enabled(s, a)
    requires Bystander(s, t, k) && !(a.CartStep? && a.t == t)
    ensures TokenOk(Step(s, a).db.orders, k)
  {
    if t in s.carts {
      assert TokenOk(s.db.orders, s.carts[t]);
      if s.carts[t].pc.CreateSession? || s.carts[t].pc.Persist? {
        BystanderToken(s, a, t);
      }
    }
  }

  lemma TokensKept(s: State, a: Action)
    requires OrdersOk(s) && EventsOk(s) && HooksOk(s) && CartsOk(s) && TokensOk(s) && Enabled(s, a)
    ensures TokensOk(Step(s, a))
  {
    var s' := Step(s, a);
    forall t | t in s'.carts
      ensures TokenOk(s'.db.orders, s'.carts[t])
    {
      if a.CartStep? && a.t == t {
        CartStepShape(s, t, a.cartChoice);
        CartKnown(s, t);
        ActorToken(s, t, s.carts[t], a.cartChoice);
      } else {
        BystanderCarts(s, a, t);
        OtherToken(s, a, t, s'.carts[t]);
      }
    }
  }

  lemma {:induction false} RunTokens(tr: seq<State>, acts: seq<Action>, i: nat)
    requires Run(tr, acts) && i < |tr|
    ensures TokensOk(tr[i])
  {
    if i > 0 {
      RunTokens(tr, acts, i - 1);
      RunInv(tr, acts, i - 1);
      assert StepAt(tr, acts, i - 1);
      TokensKept(tr[i - 1], acts[i - 1]);
    }
  }

  /** Step `i` answers checkout `t` with a session. */
  ghost predicate AnswersAt(tr: seq<State>, acts: seq<Action>, i: nat, t: Tid)
    requires i < |acts| && |tr| == |acts| + 1
  {
    && acts[i].CartStep? && acts[i].t == t && t in tr[i].carts && !tr[i].carts[t].pc.Finished?
    && t in tr[i + 1].carts && Succeeded(tr[i + 1].carts[t])
  }

  /** The token a checkout is answered with is the one its order is opened with. */
  lemma TokenAnswered(tr: seq<State>, acts: seq<Action>, i: nat, t: Tid)
    requires Run(tr, acts) && i < |acts| && AnswersAt(tr, acts, i, t)
    ensures var r := tr[i + 1].carts[t].pc.reply.result;
            && r.token != "" && r.orderId in tr[i + 1].db.orders
            && tr[i + 1].db.orders[r.orderId].tokenHash == Some(r.token)
  {
    RunTokens(tr, acts, i);
    CheckoutStepExactly(tr, acts, i, t, acts[i].cartChoice);
    TokenDrawn(tr, acts, i, t);
    assert TokenOk(tr[i].db.orders, tr[i].carts[t]);
  }

  lemma TokenDrawn(tr: seq<State>, acts: seq<Action>, i: nat, t: Tid)
    requires Run(tr, acts) && i < |acts| && acts[i].CartStep? && acts[i].t == t
    ensures acts[i].cartChoice.NewToken? ==> acts[i].cartChoice.token != ""
  {
    assert StepAt(tr, acts, i);
  }

  /** Step `m` answers some checkout by replaying this order. */
  ghost predicate ReplaysAt(tr: seq<State>, acts: seq<Action>, m: nat, id: OrderId)
    requires m < |acts| && |tr| == |acts| + 1
  {
    && acts[m].CartStep? && AnswersAt(tr, acts, m, acts[m].t)
    && tr[m + 1].carts[acts[m].t].pc.reply.Replayed?
    && tr[m + 1].carts[acts[m].t].pc.reply.result.orderId == id
  }

  ghost predicate NotReplayed(tr: seq<State>, acts: seq<Action>, i: nat, j: nat, id: OrderId)
    requires j <= |acts| && |tr| == |acts| + 1
  {
    forall m :: i <= m < j ==> !ReplaysAt(tr, acts, m, id)
  }

  lemma TokenStep(tr: seq<State>, acts: seq<Action>, i: nat, id: OrderId)
    requires Run(tr, acts) && i < |acts| && id in tr[i].db.orders && !ReplaysAt(tr, acts, i, id)
    ensures id in tr[i + 1].db.orders && tr[i + 1].db.orders[id].tokenHash == tr[i].db.orders[id].tokenHash
  {
    RowOneStep(tr, acts, i, id);
    assert StepAt(tr, acts, i);
    StepToken(tr[i], acts[i], id);
    if acts[i].CartStep? && tr[i].carts[acts[i].t].pc.RenewToken? && acts[i].cartChoice.NewToken? {
      CheckoutStepExactly(tr, acts, i, acts[i].t, acts[i].cartChoice);
    }
  }

  /** The token of an order stays the same until the order is replayed. */
  lemma {:induction false} TokenStays(tr: seq<State>, acts: seq<Action>, i: nat, j: nat, id: OrderId)
    requires Run(tr, acts) && i <= j < |tr| && id in tr[i].db.orders
    requires NotReplayed(tr, acts, i, j, id)
    ensures id in tr[j].db.orders && tr[j].db.orders[id].tokenHash == tr[i].db.orders[id].tokenHash
    decreases j - i
  {
    if i < j {
      TokenStays(tr, acts, i, j - 1, id);
      TokenStep(tr, acts, j - 1, id);
    }
  }

  /** The token in a reply opens its order in every later state, until a replay of the same
      order renews it. */
  lemma TokenOpensOrder(tr: seq<State>, acts: seq<Action>, i: nat, j: nat, t: Tid)
    requires Run(tr, acts) && i < j < |tr| && AnswersAt(tr, acts, i, t)
    requires NotReplayed(tr, acts, i + 1, j, tr[i + 1].carts[t].pc.reply.result.orderId)
    ensures var r := tr[i + 1].carts[t].pc.reply.result;
            r.token != "" && r.orderId in tr[j].db.orders && tr[j].db.orders[r.orderId].tokenHash == Some(r.token)
  {
    TokenAnswered(tr, acts, i, t);
    TokenStays(tr, acts, i + 1, j, tr[i + 1].carts[t].pc.reply.result.orderId);
  }
}
