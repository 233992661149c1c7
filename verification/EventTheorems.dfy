/** What holds of webhook events over whole runs: each takes effect once, an acknowledged
    one stays effective, and what was committed decides every order's status. */
module EventTheorems {
  import opened Domain
  import opened Tables
  import opened WebhookProgram
  import opened Protocol
  import opened Rows
  import opened Invariants
  import opened Completions
  import opened Moving
  import opened TableInvariants
  import opened Runs

  // ---- Exactly once ----------------------------------------------------------------

  /** Step `i` is a handler's completing transaction for `e`, and it commits. */
  ghost predicate CommitsAt(tr: seq<State>, acts: seq<Action>, i: nat, e: EventId)
    requires i < |acts| && |tr| == |acts| + 1
  {
    && acts[i].HookStep? && acts[i].t in tr[i].hooks
    && tr[i].hooks[acts[i].t].event == e && tr[i].hooks[acts[i].t].pc.Complete?
    && !acts[i].hookChoice.fault
    && CompleteTx(tr[i].db, tr[i].hooks[acts[i].t].pc.completion).Ok?
  }

  /** Step `i` is a handler's completing transaction, and it does not commit. */
  ghost predicate RollsBackAt(tr: seq<State>, acts: seq<Action>, i: nat)
    requires i < |acts| && |tr| == |acts| + 1
  {
    && acts[i].HookStep? && acts[i].t in tr[i].hooks && tr[i].hooks[acts[i].t].pc.Complete?
    && !CommitsAt(tr, acts, i, tr[i].hooks[acts[i].t].event)
  }

  lemma CommitMarksDb(db: Db, p: Payload, h: Hook)
    requires HookOk(db, p, h) && h.pc.Complete? && CompleteTx(db, h.pc.completion).Ok?
    ensures var db' := CompleteTx(db, h.pc.completion).value;
            && h.event in db.events && db.events[h.event].status == InFlight
            && h.event in db'.events && db'.events[h.event].status == Processed
  {
    CompletionFacts(db.orders, h.event, p, h.pc.completion, h.pc.builtAt);
    CommitEffect(db, h.pc.completion);
  }

  lemma CommitMarks(s: State, t: Tid, c: HookChoice)
    requires HooksOk(s) && Enabled(s, HookStep(t, c)) && s.hooks[t].pc.Complete?
    requires !c.fault && CompleteTx(s.db, s.hooks[t].pc.completion).Ok?
    ensures var e, s' := s.hooks[t].event, Step(s, HookStep(t, c));
            && e in s.db.events && s.db.events[e].status == InFlight
            && e in s'.db.events && s'.db.events[e].status == Processed
  {
    HookKnown(s, t);
    HookStepShape(s, t, c);
    CommitMarksDb(s.db, s.payloads[s.hooks[t].event], s.hooks[t]);
  }

  lemma RollBackKeeps(s: State, t: Tid, c: HookChoice)
    requires Enabled(s, HookStep(t, c)) && s.hooks[t].pc.Complete?
    requires c.fault || CompleteTx(s.db, s.hooks[t].pc.completion).Err?
    ensures Step(s, HookStep(t, c)).db == s.db
  {
    HookStepShape(s, t, c);
  }

  lemma CommitAtMarks(tr: seq<State>, acts: seq<Action>, i: nat, e: EventId)
    requires Run(tr, acts) && i < |acts| && CommitsAt(tr, acts, i, e)
    ensures e in tr[i].db.events && tr[i].db.events[e].status == InFlight
    ensures e in tr[i + 1].db.events && tr[i + 1].db.events[e].status == Processed
  {
    RunInv(tr, acts, i);
    assert StepAt(tr, acts, i);
    CommitMarks(tr[i], acts[i].t, acts[i].hookChoice);
  }

  /** With any number of concurrent handlers, crashes, reclaims and late failure reports,
      an event's completion commits at most once. */
  lemma CommitsAtMostOnce(tr: seq<State>, acts: seq<Action>, i: nat, j: nat, e: EventId)
    requires Run(tr, acts) && i < |acts| && j < |acts|
    requires CommitsAt(tr, acts, i, e) && CommitsAt(tr, acts, j, e)
    ensures i == j
  {
    CommitAtMarks(tr, acts, i, e);
    CommitAtMarks(tr, acts, j, e);
    if i < j {
      EventStays(tr, acts, i + 1, j, e);
    } else if j < i {
      EventStays(tr, acts, j + 1, i, e);
    }
  }

  lemma ProcessedAtCommits(tr: seq<State>, acts: seq<Action>, i: nat, e: EventId)
    requires Run(tr, acts) && i < |acts|
    requires e in tr[i + 1].db.events && tr[i + 1].db.events[e].status == Processed
    ensures (e in tr[i].db.events && tr[i].db.events[e].status == Processed) || CommitsAt(tr, acts, i, e)
  {
    RunInv(tr, acts, i);
    assert StepAt(tr, acts, i);
    ProcessedByCommit(tr[i], acts[i], e);
  }

  /** An event is `processed` exactly when its completion has committed. */
  lemma {:induction false} ProcessedIffCommitted(tr: seq<State>, acts: seq<Action>, n: nat, e: EventId)
    requires Run(tr, acts) && n < |tr|
    ensures (e in tr[n].db.events && tr[n].db.events[e].status == Processed)
            <==> exists i :: 0 <= i < n && CommitsAt(tr, acts, i, e)
  {
    if n > 0 {
      ProcessedIffCommitted(tr, acts, n - 1, e);
      if CommitsAt(tr, acts, n - 1, e) {
        CommitAtMarks(tr, acts, n - 1, e);
      } else if e in tr[n].db.events && tr[n].db.events[e].status == Processed {
        ProcessedAtCommits(tr, acts, n - 1, e);
      }
      if e in tr[n - 1].db.events && tr[n - 1].db.events[e].status == Processed {
        EventStays(tr, acts, n - 1, n, e);
      }
    }
  }

  /** A losing transaction leaves both tables exactly as they were. */
  lemma LosersChangeNothing(tr: seq<State>, acts: seq<Action>, i: nat)
    requires Run(tr, acts) && i < |acts| && RollsBackAt(tr, acts, i)
    ensures tr[i + 1].db == tr[i].db
  {
    assert StepAt(tr, acts, i);
    RollBackKeeps(tr[i], acts[i].t, acts[i].hookChoice);
  }

  // ---- Acknowledgement -------------------------------------------------------------

  /** What an acknowledgement of `e` stands for, at state `s`. */
  ghost predicate Effective(s: State, e: EventId) {
    && e in s.db.events && e in s.payloads && s.db.events[e].status == Processed
    && (Target(s.payloads[e]).Some? ==>
          && s.db.events[e].orderId.Some? && s.db.events[e].orderId.value in s.db.orders
          && var status, target := s.db.orders[s.db.events[e].orderId.value].status, Target(s.payloads[e]).value;
             if target == Processing then status in {Processing, Paid, Failed, Refunded}
             else Receives(status, target) && !Advances(status, target))
  }

  lemma EffectiveState(s: State, e: EventId)
    requires EventsOk(s) && e in s.db.events && e in s.payloads && s.db.events[e].status == Processed
    ensures Effective(s, e)
  {
    assert EventOk(s.db.orders, s.payloads[e], s.db.events[e], s.db.now);
  }

  /** Once a handler has acknowledged an event of a handled type, the event is `processed`
      for good, and its order satisfies what the event asked for in every later state. */
  lemma AcknowledgementIsDurable(tr: seq<State>, acts: seq<Action>, i: nat, j: nat, t: Tid)
    requires Run(tr, acts) && i <= j < |tr| && t in tr[i].hooks && tr[i].hooks[t].pc == Done(Acknowledged)
    requires tr[i].hooks[t].event in tr[i].payloads && Handled(tr[i].payloads[tr[i].hooks[t].event])
    ensures Effective(tr[j], tr[i].hooks[t].event)
  {
    var e := tr[i].hooks[t].event;
    RunInv(tr, acts, i);
    assert HookOk(tr[i].db, tr[i].payloads[e], tr[i].hooks[t]);
    EventStays(tr, acts, i, j, e);
    PayloadsFixed(tr, acts, i, j);
    RunInv(tr, acts, j);
    EffectiveState(tr[j], e);
  }

  // ---- Confluence ------------------------------------------------------------------

  /** Some committed event about the order asked for `target`. */
  ghost predicate Committed(s: State, id: OrderId, target: OrderStatus) {
    exists e :: CommittedEvent(s, e, id, target)
  }

  ghost predicate CommittedEvent(s: State, e: EventId, id: OrderId, target: OrderStatus) {
    && e in s.db.events && e in s.payloads
    && s.db.events[e].status == Processed && s.db.events[e].orderId == Some(id)
    && Target(s.payloads[e]) == Some(target)
  }

  /** The status the committed events add up to, whatever order they came in. */
  ghost function Verdict(s: State, id: OrderId): Option<OrderStatus> {
    if Committed(s, id, Refunded) then Some(Refunded)
    else if Committed(s, id, Paid) then Some(Paid)
    else if Committed(s, id, Failed) then Some(Failed)
    else if Committed(s, id, Expired) then Some(Expired)
    else if Committed(s, id, Processing) then Some(Processing)
    else None
  }

  lemma CommittedPast(s: State, id: OrderId, target: OrderStatus)
    requires EventsOk(s) && id in s.db.orders && Committed(s, id, target)
    ensures Past(s.db.orders[id].status, target)
  {
    var e :| CommittedEvent(s, e, id, target);
    assert EventOk(s.db.orders, s.payloads[e], s.db.events[e], s.db.now);
  }

  lemma CauseCommitted(s: State, id: OrderId, target: OrderStatus)
    requires HasCause(s, id, target)
    ensures Committed(s, id, target)
  {
    var e :| Cause(s, e, id, target);
    assert CommittedEvent(s, e, id, target);
  }

  lemma VerdictState(s: State, id: OrderId)
    requires EventsOk(s) && id in s.db.orders && CauseOk(s, id, s.db.orders[id].status)
    ensures match Verdict(s, id)
            case Some(status) => s.db.orders[id].status == status
            case None => s.db.orders[id].status in {Pending, Canceled}
  {
    var status := s.db.orders[id].status;
    forall target | Committed(s, id, target)
      ensures Past(status, target)
    {
      CommittedPast(s, id, target);
    }
    if status in {Processing, Failed, Expired} {
      CauseCommitted(s, id, status);
    }
    if Settled(status) {
      CauseCommitted(s, id, Paid);
    }
    if status == Refunded {
      CauseCommitted(s, id, Refunded);
    }
  }

  /** In every reachable state an order's status is a function of which events have been
      committed for it: their order, repetition and interleaving leave no trace. */
  lemma StatusIsVerdict(tr: seq<State>, acts: seq<Action>, i: nat, id: OrderId)
    requires Run(tr, acts) && i < |tr| && id in tr[i].db.orders
    ensures match Verdict(tr[i], id)
            case Some(status) => tr[i].db.orders[id].status == status
            case None => tr[i].db.orders[id].status in {Pending, Canceled}
  {
    RunInv(tr, acts, i);
    VerdictState(tr[i], id);
  }

  // ---- Stale reads -----------------------------------------------------------------

  lemma SameUpdate(orders: map<OrderId, Order>, e: EventId, p: Payload, c: Completion, at: Time)
    requires CompletionOk(orders, e, p, c, at) && c.orderId.Some?
    ensures var rebuilt := Build(e, p, Some(Found(c.orderId.value, orders[c.orderId.value])), at);
            && rebuilt.Ok? && rebuilt.value.event == c.event && rebuilt.value.orderId == c.orderId
            && UpdateOrderFor(orders, rebuilt.value) == UpdateOrderFor(orders, c)
  {
    var id := c.orderId.value;
    if Build(e, p, Some(Found(id, orders[id])), at) != Ok(c) {
      assert p.ChargeRefunded? && orders[id].status == Refunded;
    }
  }

  lemma RebuildState(db: Db, e: EventId, p: Payload, c: Completion, at: Time)
    requires CompletionOk(db.orders, e, p, c, at)
    ensures match c.orderId
            case Some(id) =>
              && id in db.orders && Finds(db.orders, LookupFor(p), Some(id))
              && var rebuilt := Build(e, p, Some(Found(id, db.orders[id])), at);
                 rebuilt.Ok? && CompleteTx(db, rebuilt.value) == CompleteTx(db, c)
            case None =>
              LookupFor(p).NoLookup? && Build(e, p, None, at) == Ok(c)
    ensures c.refundOnly ==> UpdateOrderFor(db.orders, c).Ok?
  {
    CompletionFacts(db.orders, e, p, c, at);
    if c.orderId.Some? {
      SameUpdate(db.orders, e, p, c, at);
    }
  }

  /** A handler about to commit read its order some time ago. Looking the order up again
      and rebuilding the completion now would have exactly the same outcome, and a refund
      is never turned away. */
  lemma StaleReadsAreHarmless(tr: seq<State>, acts: seq<Action>, i: nat, t: Tid)
    requires Run(tr, acts) && i < |tr| && t in tr[i].hooks && tr[i].hooks[t].pc.Complete?
    requires tr[i].hooks[t].event in tr[i].payloads
    ensures var e, c, at := tr[i].hooks[t].event, tr[i].hooks[t].pc.completion, tr[i].hooks[t].pc.builtAt;
            var p, db := tr[i].payloads[e], tr[i].db;
            match c.orderId
            case Some(id) =>
              && id in db.orders && Finds(db.orders, LookupFor(p), Some(id))
              && var rebuilt := Build(e, p, Some(Found(id, db.orders[id])), at);
                 rebuilt.Ok? && CompleteTx(db, rebuilt.value) == CompleteTx(db, c)
            case None =>
              LookupFor(p).NoLookup? && Build(e, p, None, at) == Ok(c)
    ensures tr[i].hooks[t].pc.completion.refundOnly ==>
            UpdateOrderFor(tr[i].db.orders, tr[i].hooks[t].pc.completion).Ok?
  {
    RunInv(tr, acts, i);
    var h := tr[i].hooks[t];
    assert HookOk(tr[i].db, tr[i].payloads[h.event], h);
    RebuildState(tr[i].db, h.event, tr[i].payloads[h.event], h.pc.completion, h.pc.builtAt);
  }
}
