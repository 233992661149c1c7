/** All handlers, checkouts and sweeps running over one database: states, actions, runs. */
module Protocol {
  import opened Domain
  import opened Canonical
  import opened Validation
  import opened Tables
  import opened WebhookProgram
  import opened CheckoutProgram

  type Tid = nat

  /** An order row exactly as first inserted, and the checkout that inserted it. */
  datatype Birth = Birth(row: Order, creator: Tid)

  /** `born` and the recording fields of hooks and carts are history: nothing reads them. */
  datatype State = State(
    db: Db, payloads: map<EventId, Payload>, hooks: map<Tid, Hook>, carts: map<Tid, Cart>,
    born: map<OrderId, Birth>)

  datatype Action =
    | Tick(elapsed: Time)
    | Sweep
    | Deliver(t: Tid, event: EventId)
    | HookStep(t: Tid, hookChoice: HookChoice)
    | HookCrash(t: Tid)
    | Submit(t: Tid, request: Request, key: string, emailParses: bool)
    | CartStep(t: Tid, cartChoice: CartChoice)
    | CartCut(t: Tid)
    | CartCrash(t: Tid)

  predicate Enabled(s: State, a: Action) {
    match a
    case Tick(_) => true
    case Sweep => true
    case Deliver(t, e) => t !in s.hooks && e in s.payloads
    case HookStep(t, c) =>
      t in s.hooks && s.hooks[t].event in s.payloads && HookEnabled(s.db, s.payloads[s.hooks[t].event], s.hooks[t], c)
    case HookCrash(t) => t in s.hooks && HookRunning(s.hooks[t])
    case Submit(t, r, key, parses) => t !in s.carts && ValidRequest(r, parses) && ValidKey(key)
    case CartStep(t, c) => t in s.carts && CartEnabled(s.db, s.carts[t], c)
    case CartCut(t) => t in s.carts && CartRunning(s.carts[t])
    case CartCrash(t) => t in s.carts && CartRunning(s.carts[t])
  }

  function NewCart(r: Request, key: string, now: Time): Cart {
    Cart(r, key, CanonicalText(r), now, if key == "" then Price else Resolve(false), false, None, [])
  }

  /** Does this step of the saga insert the order? */
  predicate Inserts(s: State, t: Tid, c: CartChoice)
    requires t in s.carts
  {
    && s.carts[t].pc.InsertOrder?
    && c.Proceeds?
    && CreateOrderWithItems(s.db, s.carts[t].pc.draft.id, RowFor(s.carts[t], s.carts[t].pc.draft, s.db.now)).Ok?
  }

  function BornAfter(s: State, t: Tid, c: CartChoice): map<OrderId, Birth>
    requires t in s.carts
  {
    if Inserts(s, t, c)
    then s.born[s.carts[t].pc.draft.id := Birth(RowFor(s.carts[t], s.carts[t].pc.draft, s.db.now), t)]
    else s.born
  }

  function Step(s: State, a: Action): State
    requires Enabled(s, a)
  {
    match a
    case Tick(elapsed) => s.(db := s.db.(now := s.db.now + elapsed))
    case Sweep => s.(db := CancelStalePendingOrders(s.db))
    case Deliver(t, e) => s.(hooks := s.hooks[t := Hook(e, Read, s.db.now, None)])
    case HookStep(t, c) =>
      var h, p := s.hooks[t], s.payloads[s.hooks[t].event];
      s.(db := HookDb(s.db, p, h, c), hooks := s.hooks[t := HookNext(s.db, p, h, c)])
    case HookCrash(t) => s.(hooks := s.hooks[t := s.hooks[t].(pc := Crashed)])
    case Submit(t, r, key, _) => s.(carts := s.carts[t := NewCart(r, key, s.db.now)])
    case CartStep(t, c) =>
      s.(db := CartDb(s.db, s.carts[t], c), carts := s.carts[t := CartNext(s.db, s.carts[t], c)],
         born := BornAfter(s, t, c))
    case CartCut(t) => s.(carts := s.carts[t := s.carts[t].(cut := true)])
    case CartCrash(t) => s.(carts := s.carts[t := s.carts[t].(pc := Died)])
  }

  /** Empty tables, nothing running; what each event id will carry is fixed in advance. */
  predicate Init(s: State) {
    s.db.orders == map[] && s.db.events == map[] && s.hooks == map[] && s.carts == map[] && s.born == map[]
  }

  predicate StepAt(tr: seq<State>, acts: seq<Action>, i: nat)
    requires i < |acts| && |tr| == |acts| + 1
  {
    Enabled(tr[i], acts[i]) && tr[i + 1] == Step(tr[i], acts[i])
  }

  /** A run: the states passed through and the actions taken between them. */
  predicate Run(tr: seq<State>, acts: seq<Action>) {
    && |tr| == |acts| + 1
    && Init(tr[0])
    && forall i :: 0 <= i < |acts| ==> StepAt(tr, acts, i)
  }
}
