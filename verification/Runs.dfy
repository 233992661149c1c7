/** From single actions to whole runs: the invariant holds throughout, rows only evolve,
    and events once processed stay as they are. */
module Runs {
  import opened Domain
  import opened Tables
  import opened Protocol
  import opened Rows
  import opened Invariants
  import opened Moving
  import opened ThreadInvariants

  /** Every reachable state satisfies the global invariant. */
  lemma {:induction false} RunInv(tr: seq<State>, acts: seq<Action>, i: nat)
    requires Run(tr, acts) && i < |tr|
    ensures Inv(tr[i])
  {
    if i == 0 {
      InitInv(tr[0]);
    } else {
      RunInv(tr, acts, i - 1);
      assert StepAt(tr, acts, i - 1);
      StepInv(tr[i - 1], acts[i - 1]);
    }
  }

  lemma {:induction false} RunHashes(tr: seq<State>, acts: seq<Action>, i: nat)
    requires Run(tr, acts) && i < |tr|
    ensures HashesOk(tr[i])
  {
    if i > 0 {
      RunHashes(tr, acts, i - 1);
      assert StepAt(tr, acts, i - 1);
      HashesKept(tr[i - 1], acts[i - 1]);
    }
  }

  /** One step of a run, with everything known about it. */
  lemma RunStep(tr: seq<State>, acts: seq<Action>, i: nat)
    requires Run(tr, acts) && i < |acts|
    ensures Inv(tr[i]) && Inv(tr[i + 1])
    ensures Enabled(tr[i], acts[i]) && tr[i + 1] == Step(tr[i], acts[i])
    ensures Moves(tr[i], tr[i + 1], Actor(acts[i]))
  {
    RunInv(tr, acts, i);
    RunInv(tr, acts, i + 1);
    assert StepAt(tr, acts, i);
    StepMoves(tr[i], acts[i]);
  }

  /** The same, with only what concerns the tables. */
  lemma RunMove(tr: seq<State>, acts: seq<Action>, i: nat)
    requires Run(tr, acts) && i < |acts|
    ensures Moves(tr[i], tr[i + 1], Actor(acts[i]))
    ensures OrdersOk(tr[i]) && OrdersOk(tr[i + 1]) && EventsOk(tr[i])
  {
    RunStep(tr, acts, i);
  }

  lemma RunOrders(tr: seq<State>, acts: seq<Action>, i: nat)
    requires Run(tr, acts) && i < |tr|
    ensures OrdersOk(tr[i]) && EventsOk(tr[i])
  {
    RunInv(tr, acts, i);
  }

  lemma RunBorn(tr: seq<State>, acts: seq<Action>, i: nat, id: OrderId)
    requires Run(tr, acts) && i < |tr| && id in tr[i].db.orders
    ensures id in tr[i].born && OrderOk(tr[i].born[id], tr[i].db.orders[id])
  {
    RunOrders(tr, acts, i);
  }

  /** `id`'s row in `s'` is a later version of its row in `s`. */
  ghost predicate LaterRow(s: State, s': State, id: OrderId) {
    && id in s.db.orders && id in s'.db.orders && Evolves(s.db.orders[id], s'.db.orders[id])
    && id in s.born && id in s'.born && s'.born[id] == s.born[id]
  }

  lemma EvolvesOneMore(s: State, s': State, actor: Option<Tid>, id: OrderId, a: Order)
    requires Moves(s, s', actor) && id in s.db.orders && Evolves(a, s.db.orders[id])
    ensures id in s'.db.orders && Evolves(a, s'.db.orders[id])
    ensures id in s.born && id in s'.born && s'.born[id] == s.born[id]
  {
    EvolvesTransitive(a, s.db.orders[id], s'.db.orders[id]);
  }

  lemma LaterTransitive(s: State, mid: State, s': State, id: OrderId)
    requires LaterRow(s, mid, id) && LaterRow(mid, s', id)
    ensures LaterRow(s, s', id)
  {
    EvolvesTransitive(s.db.orders[id], mid.db.orders[id], s'.db.orders[id]);
  }

  lemma RowOneStep(tr: seq<State>, acts: seq<Action>, i: nat, id: OrderId)
    requires Run(tr, acts) && i < |acts| && id in tr[i].db.orders
    ensures LaterRow(tr[i], tr[i + 1], id)
  {
    RunMove(tr, acts, i);
    EvolvesReflexive(tr[i].db.orders[id]);
    EvolvesOneMore(tr[i], tr[i + 1], Actor(acts[i]), id, tr[i].db.orders[id]);
  }

  /** An order row, once inserted, is there for good and only evolves. */
  lemma {:induction false} OrderEvolves(tr: seq<State>, acts: seq<Action>, i: nat, j: nat, id: OrderId)
    requires Run(tr, acts) && i <= j < |tr| && id in tr[i].db.orders
    ensures LaterRow(tr[i], tr[j], id)
    decreases j - i
  {
    if i == j {
      RunBorn(tr, acts, i, id);
      EvolvesReflexive(tr[i].db.orders[id]);
    } else {
      OrderEvolves(tr, acts, i, j - 1, id);
      RowOneStep(tr, acts, j - 1, id);
      LaterTransitive(tr[i], tr[j - 1], tr[j], id);
    }
  }

  /** The payload of an event id never changes, and time never runs back. */
  lemma {:induction false} PayloadsFixed(tr: seq<State>, acts: seq<Action>, i: nat, j: nat)
    requires Run(tr, acts) && i <= j < |tr|
    ensures tr[j].payloads == tr[i].payloads && tr[i].db.now <= tr[j].db.now
    decreases j - i
  {
    if i < j {
      PayloadsFixed(tr, acts, i, j - 1);
      RunMove(tr, acts, j - 1);
    }
  }

  lemma ProcessedOneMore(s: State, s': State, actor: Option<Tid>, e: EventId)
    requires Moves(s, s', actor) && EventsOk(s) && e in s.db.events
    ensures e in s'.db.events
    ensures s.db.events[e].status == Processed ==> s'.db.events[e] == s.db.events[e]
  {
    assert EventOk(s.db.orders, s.payloads[e], s.db.events[e], s.db.now);
  }

  /** Event rows are never deleted; a processed one never changes again. */
  lemma {:induction false} EventStays(tr: seq<State>, acts: seq<Action>, i: nat, j: nat, e: EventId)
    requires Run(tr, acts) && i <= j < |tr| && e in tr[i].db.events
    ensures e in tr[j].db.events
    ensures tr[i].db.events[e].status == Processed ==> tr[j].db.events[e] == tr[i].db.events[e]
    decreases j - i
  {
    if i < j {
      EventStays(tr, acts, i, j - 1, e);
      RunMove(tr, acts, j - 1);
      ProcessedOneMore(tr[j - 1], tr[j], Actor(acts[j - 1]), e);
    }
  }
}
