/** Claims and time: when two handlers can hold the same event, which events can be
    claimed again, and which are lost. */
module ClaimTheorems {
  import opened Domain
  import opened Tables
  import opened WebhookProgram
  import opened Protocol
  import opened Rows
  import opened Invariants
  import Completions
  import opened Moving
  import opened Runs

  // ---- Who touches an event row ----------------------------------------------------

  lemma CommitRow(db: Db, e: EventId, p: Payload, c: Completion, at: Time)
    requires CompletionOk(db.orders, e, p, c, at) && CompleteTx(db, c).Ok?
    ensures forall other :: other in db.events && other != e ==>
              other in CompleteTx(db, c).value.events && CompleteTx(db, c).value.events[other] == db.events[other]
  {
    Completions.CompletionFacts(db.orders, e, p, c, at);
    CommitEffect(db, c);
  }

  /** A handler writes no event row but its own. */
  lemma OwnRowOnly(db: Db, p: Payload, h: Hook, c: HookChoice, e: EventId)
    requires HookOk(db, p, h) && e in db.events && e != h.event
    ensures e in HookDb(db, p, h, c).events && HookDb(db, p, h, c).events[e] == db.events[e]
  {
    if !h.pc.Complete? {
      EventOnlyEffect(db, p, h, c);
    } else if HookDb(db, p, h, c) != db {
      CommitRow(db, h.event, p, h.pc.completion, h.pc.builtAt);
    }
  }

  /** What a handler is about when it changes the row of its own handled event. */
  lemma OwnRowTouched(db: Db, p: Payload, h: Hook, c: HookChoice)
    requires HookOk(db, p, h) && Handled(p) && h.event in db.events
    requires h.event in HookDb(db, p, h, c).events && HookDb(db, p, h, c).events[h.event] != db.events[h.event]
    ensures !c.fault && ((h.pc.TryClaim? && CanClaim(db, h.event)) || PastClaim(h))
    ensures HookDb(db, p, h, c).events[h.event].status == Processed ==> h.pc.Complete?
    ensures HookDb(db, p, h, c).events[h.event].status == Rejected ==> h.pc.ReportFailure?
  {
  }

  /** A step that changes the row of a handled event is a handler of that event claiming,
      committing or reporting failure. */
  lemma RowTouched(s: State, a: Action, e: EventId)
    requires HooksOk(s) && Enabled(s, a) && e in s.db.events && e in s.payloads && Handled(s.payloads[e])
    requires e in Step(s, a).db.events && Step(s, a).db.events[e] != s.db.events[e]
    ensures a.HookStep? && s.hooks[a.t].event == e && !a.hookChoice.fault
    ensures (s.hooks[a.t].pc.TryClaim? && CanClaim(s.db, e)) || PastClaim(s.hooks[a.t])
    ensures Step(s, a).db.events[e].status == Processed ==> s.hooks[a.t].pc.Complete?
    ensures Step(s, a).db.events[e].status == Rejected ==> s.hooks[a.t].pc.ReportFailure?
  {
    match a {
      case HookStep(t, c) =>
        HookStepShape(s, t, c);
        HookKnown(s, t);
        if s.hooks[t].event != e {
          OwnRowOnly(s.db, s.payloads[s.hooks[t].event], s.hooks[t], c, e);
        } else {
          OwnRowTouched(s.db, s.payloads[e], s.hooks[t], c);
        }
      case CartStep(t, c) => CartStepShape(s, t, c);
      case _ =>
    }
  }

  // ---- Separation of claims --------------------------------------------------------

  /** Step `i` is a successful claim of `e`. */
  ghost predicate ClaimsAt(tr: seq<State>, acts: seq<Action>, i: nat, e: EventId)
    requires i < |acts| && |tr| == |acts| + 1
  {
    && acts[i].HookStep? && acts[i].t in tr[i].hooks && !acts[i].hookChoice.fault
    && tr[i].hooks[acts[i].t].event == e && tr[i].hooks[acts[i].t].pc.TryClaim? && CanClaim(tr[i].db, e)
  }

  /** Step `i` is a handler of `e` reporting its failure, and the report lands. */
  ghost predicate FailsAt(tr: seq<State>, acts: seq<Action>, i: nat, e: EventId)
    requires i < |acts| && |tr| == |acts| + 1
  {
    && acts[i].HookStep? && acts[i].t in tr[i].hooks && !acts[i].hookChoice.fault
    && tr[i].hooks[acts[i].t].event == e && tr[i].hooks[acts[i].t].pc.ReportFailure?
    && e in tr[i].db.events && tr[i].db.events[e].status == InFlight
  }

  lemma ReportWrites(s: State, t: Tid, c: HookChoice)
    requires Enabled(s, HookStep(t, c)) && s.hooks[t].pc.ReportFailure? && !c.fault
    requires s.hooks[t].event in s.db.events && s.db.events[s.hooks[t].event].status == InFlight
    ensures var e, db := s.hooks[t].event, Step(s, HookStep(t, c)).db;
            db == s.db.(events := s.db.events[e := s.db.events[e].(status := Rejected)])
  {
    HookStepShape(s, t, c);
  }

  /** A failure report that lands marks the event failed, and touches nothing else. */
  lemma ReportLands(tr: seq<State>, acts: seq<Action>, i: nat, e: EventId)
    requires Run(tr, acts) && i < |acts| && FailsAt(tr, acts, i, e)
    ensures tr[i + 1].db ==
            tr[i].db.(events := tr[i].db.events[e := tr[i].db.events[e].(status := Rejected)])
  {
    assert StepAt(tr, acts, i);
    ReportWrites(tr[i], acts[i].t, acts[i].hookChoice);
  }

  lemma OnlyReportsReject(tr: seq<State>, acts: seq<Action>, i: nat, e: EventId)
    requires Run(tr, acts) && i < |acts| && e in tr[i].db.events && e in tr[i].payloads && Handled(tr[i].payloads[e])
    requires tr[i].db.events[e].status == InFlight
    requires e in tr[i + 1].db.events && tr[i + 1].db.events[e].status == Rejected
    ensures FailsAt(tr, acts, i, e)
  {
    RunInv(tr, acts, i);
    assert StepAt(tr, acts, i);
    RowTouched(tr[i], acts[i], e);
  }

  /** Since a claim at `since`, the event is still in flight under it or a later one, or done. */
  ghost predicate HeldSince(s: State, e: EventId, since: Time) {
    && e in s.db.events && e in s.payloads && Handled(s.payloads[e])
    && (s.db.events[e].status == Processed
        || (s.db.events[e].status == InFlight && s.db.events[e].startedAt.Some?
            && since <= s.db.events[e].startedAt.value))
  }

  lemma HeldMoves(s: State, s': State, actor: Option<Tid>, e: EventId, since: Time)
    requires Moves(s, s', actor) && HeldSince(s, e, since) && since <= s.db.now
    requires e in s'.db.events && !(s.db.events[e].status == InFlight && s'.db.events[e].status == Rejected)
    ensures HeldSince(s', e, since)
  {
    assert EventMoves(true, s.db.events[e], s'.db.events[e], s.db.now);
  }

  lemma ClaimHolds(s: State, t: Tid, c: HookChoice, e: EventId)
    requires HooksOk(s) && Enabled(s, HookStep(t, c)) && !c.fault
    requires s.hooks[t].event == e && s.hooks[t].pc.TryClaim? && CanClaim(s.db, e)
    ensures HeldSince(Step(s, HookStep(t, c)), e, s.db.now)
  {
    HookStepShape(s, t, c);
    HookKnown(s, t);
  }

  lemma {:induction false} HeldUntil(tr: seq<State>, acts: seq<Action>, i: nat, j: nat, e: EventId)
    requires Run(tr, acts) && i < j < |tr| && ClaimsAt(tr, acts, i, e)
    requires forall k :: i < k < j ==> !FailsAt(tr, acts, k, e)
    ensures HeldSince(tr[j], e, tr[i].db.now)
    decreases j - i
  {
    if j == i + 1 {
      RunInv(tr, acts, i);
      assert StepAt(tr, acts, i);
      ClaimHolds(tr[i], acts[i].t, acts[i].hookChoice, e);
    } else {
      HeldUntil(tr, acts, i, j - 1, e);
      RunMove(tr, acts, j - 1);
      PayloadsFixed(tr, acts, i, j - 1);
      EventStays(tr, acts, j - 1, j, e);
      if tr[j - 1].db.events[e].status == InFlight && tr[j].db.events[e].status == Rejected {
        OnlyReportsReject(tr, acts, j - 1, e);
      }
      HeldMoves(tr[j - 1], tr[j], Actor(acts[j - 1]), e, tr[i].db.now);
    }
  }

  /** Two successful claims of one event are separated by a failure report or by more
      than five minutes. */
  lemma ClaimsAreSeparated(tr: seq<State>, acts: seq<Action>, i: nat, j: nat, e: EventId)
    requires Run(tr, acts) && i < j < |acts|
    requires ClaimsAt(tr, acts, i, e) && ClaimsAt(tr, acts, j, e)
    ensures (exists k :: i < k < j && FailsAt(tr, acts, k, e))
            || tr[i].db.now + STALE_WEBHOOK < tr[j].db.now
  {
    if forall k :: i < k < j ==> !FailsAt(tr, acts, k, e) {
      HeldUntil(tr, acts, i, j, e);
    }
  }

  // ---- Mutual exclusion under the request limit ------------------------------------

  /** A handler has not yet run into the time limit of its request. */
  predicate WithinLimit(h: Hook, limit: Time, now: Time) {
    now <= h.started + limit
  }

  /** A step that makes no store call. */
  predicate LocalStep(p: Payload, h: Hook) {
    h.pc.TestStale? || (h.pc.BuildCompletion? && LookupFor(p).NoLookup?)
  }

  /** A handler may take a step with this outcome: past the limit its context is over, so it
      runs on, but every store call it makes fails. */
  predicate InTime(p: Payload, h: Hook, c: HookChoice, limit: Time, now: Time) {
    WithinLimit(h, limit, now) || c.fault || LocalStep(p, h)
  }

  /** A run in which the context of every webhook request ends with the limit. */
  ghost predicate TimelyRun(tr: seq<State>, acts: seq<Action>, limit: Time) {
    && Run(tr, acts)
    && forall i :: 0 <= i < |acts| ==> TimelyAt(tr, acts, limit, i)
  }

  ghost predicate TimelyAt(tr: seq<State>, acts: seq<Action>, limit: Time, i: nat)
    requires i < |acts| && |tr| == |acts| + 1
  {
    acts[i].HookStep? ==> StepInTime(tr[i], acts[i].t, acts[i].hookChoice, limit)
  }

  ghost predicate StepInTime(s: State, t: Tid, c: HookChoice, limit: Time) {
    t in s.hooks && s.hooks[t].event in s.payloads ==>
      InTime(s.payloads[s.hooks[t].event], s.hooks[t], c, limit, s.db.now)
  }

  /** A handler past its claim and within the limit is the one the event row names. */
  ghost predicate HolderOk(db: Db, limit: Time, h: Hook) {
    PastClaim(h) ==>
      && h.claimedAt.Some? && h.claimedAt.value <= h.started + limit && h.started <= h.claimedAt.value
      && (WithinLimit(h, limit, db.now) ==>
            h.event in db.events && db.events[h.event].status == InFlight
                && db.events[h.event].startedAt == h.claimedAt)
  }

  ghost predicate Apart(g: Hook, h: Hook) {
    PastClaim(g) && PastClaim(h) && g.event == h.event ==> g.claimedAt != h.claimedAt
  }

  ghost predicate Holders(s: State, limit: Time) {
    && (forall t :: t in s.hooks ==> HolderOk(s.db, limit, s.hooks[t]))
    && (forall t, u :: t in s.hooks && u in s.hooks && t != u ==> Apart(s.hooks[t], s.hooks[u]))
  }

  /** Nobody else touches the row of a handler within the limit. */
  lemma BystanderRow(db: Db, limit: Time, p: Payload, g: Hook, c: HookChoice, q: Payload, h: Hook)
    requires HookOk(db, p, g) && HookOk(db, q, h) && (g.event == h.event ==> p == q)
    requires limit <= STALE_WEBHOOK && HolderOk(db, limit, g) && WithinLimit(g, limit, db.now)
    requires HolderOk(db, limit, h) && Apart(g, h) && PastClaim(h) && WithinLimit(h, limit, db.now)
    ensures h.event in HookDb(db, p, g, c).events && HookDb(db, p, g, c).events[h.event] == db.events[h.event]
  {
    if g.event != h.event {
      OwnRowOnly(db, p, g, c, h.event);
    } else if h.event !in HookDb(db, p, g, c).events || HookDb(db, p, g, c).events[h.event] != db.events[h.event] {
      if !g.pc.Complete? {
        EventOnlyEffect(db, p, g, c);
      }
      OwnRowTouched(db, p, g, c);
    }
  }

  lemma BystanderHolds(s: State, limit: Time, t: Tid, c: HookChoice, u: Tid)
    requires limit <= STALE_WEBHOOK && HooksOk(s) && Holders(s, limit) && Enabled(s, HookStep(t, c))
    requires u in s.hooks && u != t
    requires WithinLimit(s.hooks[t], limit, s.db.now)
    ensures HolderOk(HookDb(s.db, s.payloads[s.hooks[t].event], s.hooks[t], c), limit, s.hooks[u])
  {
    var p, q := s.payloads[s.hooks[t].event], s.payloads[s.hooks[u].event];
    HookStepShape(s, t, c);
    HookKnown(s, t);
    HookKnown(s, u);
    assert HolderOk(s.db, limit, s.hooks[t]) && HolderOk(s.db, limit, s.hooks[u]) && Apart(s.hooks[t], s.hooks[u]);
    if PastClaim(s.hooks[u]) && WithinLimit(s.hooks[u], limit, s.db.now) {
      BystanderRow(s.db, limit, p, s.hooks[t], c, q, s.hooks[u]);
    }
  }

  lemma ActorHolds(db: Db, limit: Time, p: Payload, h: Hook, c: HookChoice)
    requires HookOk(db, p, h) && HolderOk(db, limit, h) && WithinLimit(h, limit, db.now) && HookEnabled(db, p, h, c)
    ensures HolderOk(HookDb(db, p, h, c), limit, HookNext(db, p, h, c))
  {
  }

  /** A handler that has just claimed does so at an instant no other holder claimed at. */
  lemma ActorApart(db: Db, limit: Time, p: Payload, h: Hook, c: HookChoice, g: Hook)
    requires limit <= STALE_WEBHOOK && HookOk(db, p, h) && Apart(h, g)
    requires HolderOk(db, limit, h) && HolderOk(db, limit, g)
    requires WithinLimit(h, limit, db.now) && HookEnabled(db, p, h, c)
    requires PastClaim(g) ==> g.claimedAt.Some? && g.claimedAt.value <= db.now
    ensures Apart(HookNext(db, p, h, c), g)
  {
  }

  lemma HookHoldersKept(s: State, limit: Time, t: Tid, c: HookChoice)
    requires limit <= STALE_WEBHOOK && HooksOk(s) && Holders(s, limit)
    requires Enabled(s, HookStep(t, c)) && WithinLimit(s.hooks[t], limit, s.db.now)
    ensures Holders(Step(s, HookStep(t, c)), limit)
  {
    var s', p, h := Step(s, HookStep(t, c)), s.payloads[s.hooks[t].event], s.hooks[t];
    HookStepShape(s, t, c);
    HookKnown(s, t);
    assert HolderOk(s.db, limit, h);
    ActorHolds(s.db, limit, p, h, c);
    forall u | u in s.hooks && u != t
      ensures HolderOk(s'.db, limit, s.hooks[u]) && Apart(s'.hooks[t], s.hooks[u]) && Apart(s.hooks[u], s'.hooks[t])
    {
      BystanderHolds(s, limit, t, c, u);
      HookKnown(s, u);
      assert HolderOk(s.db, limit, s.hooks[u]) && Apart(h, s.hooks[u]);
      ActorApart(s.db, limit, p, h, c, s.hooks[u]);
    }
  }

  /** Everyone else leaves the events alone and starts or stops handlers at most. */
  lemma QuietHolders(s: State, limit: Time, a: Action)
    requires Holders(s, limit) && Enabled(s, a) && !a.HookStep?
    ensures Holders(Step(s, a), limit)
  {
    var s' := Step(s, a);
    if a.CartStep? {
      CartStepShape(s, a.t, a.cartChoice);
    }
    forall t | t in s'.hooks
      ensures HolderOk(s'.db, limit, s'.hooks[t])
    {
      if t in s.hooks {
        assert HolderOk(s.db, limit, s.hooks[t]);
      }
    }
    forall t, u | t in s'.hooks && u in s'.hooks && t != u
      ensures Apart(s'.hooks[t], s'.hooks[u])
    {
      if t in s.hooks && u in s.hooks {
        assert Apart(s.hooks[t], s.hooks[u]);
      }
    }
  }

  /** A handler past its limit changes nothing and gains no hold. */
  lemma LateStep(db: Db, p: Payload, h: Hook, c: HookChoice)
    requires HookEnabled(db, p, h, c) && (c.fault || LocalStep(p, h))
    ensures HookDb(db, p, h, c) == db
    ensures var h' := HookNext(db, p, h, c);
            && h'.event == h.event && h'.started == h.started && h'.claimedAt == h.claimedAt
            && (PastClaim(h') ==> PastClaim(h))
  {
  }

  lemma LateHoldersKept(s: State, limit: Time, t: Tid, c: HookChoice)
    requires Holders(s, limit) && Enabled(s, HookStep(t, c)) && StepInTime(s, t, c, limit)
    requires !WithinLimit(s.hooks[t], limit, s.db.now)
    ensures Holders(Step(s, HookStep(t, c)), limit)
  {
    var s', p, h := Step(s, HookStep(t, c)), s.payloads[s.hooks[t].event], s.hooks[t];
    HookStepShape(s, t, c);
    LateStep(s.db, p, h, c);
    assert HolderOk(s.db, limit, h);
    forall u | u in s.hooks && u != t
      ensures HolderOk(s'.db, limit, s.hooks[u])
      ensures Apart(s'.hooks[t], s.hooks[u]) && Apart(s.hooks[u], s'.hooks[t])
    {
      assert HolderOk(s.db, limit, s.hooks[u]) && Apart(h, s.hooks[u]);
    }
  }

  lemma HoldersKept(s: State, limit: Time, a: Action)
    requires limit <= STALE_WEBHOOK && HooksOk(s) && Holders(s, limit) && Enabled(s, a)
    requires a.HookStep? ==> StepInTime(s, a.t, a.hookChoice, limit)
    ensures Holders(Step(s, a), limit)
  {
    if a.HookStep? {
      if WithinLimit(s.hooks[a.t], limit, s.db.now) {
        HookHoldersKept(s, limit, a.t, a.hookChoice);
      } else {
        LateHoldersKept(s, limit, a.t, a.hookChoice);
      }
    } else {
      QuietHolders(s, limit, a);
    }
  }

  lemma {:induction false} TimelyHolders(tr: seq<State>, acts: seq<Action>, limit: Time, i: nat)
    requires TimelyRun(tr, acts, limit) && limit <= STALE_WEBHOOK && i < |tr|
    ensures Holders(tr[i], limit)
  {
    if i > 0 {
      TimelyHolders(tr, acts, limit, i - 1);
      RunInv(tr, acts, i - 1);
      assert StepAt(tr, acts, i - 1);
      assert TimelyAt(tr, acts, limit, i - 1);
      HoldersKept(tr[i - 1], limit, acts[i - 1]);
    }
  }

  /** Two handlers past the claim on one event, both within the limit. */
  ghost predicate BothHold(s: State, limit: Time, t: Tid, u: Tid) {
    && t in s.hooks && u in s.hooks && t != u && s.hooks[t].event == s.hooks[u].event
    && PastClaim(s.hooks[t]) && WithinLimit(s.hooks[t], limit, s.db.now)
    && PastClaim(s.hooks[u]) && WithinLimit(s.hooks[u], limit, s.db.now)
  }

  /** If the context of a webhook request ends with a limit of up to five minutes, no two
      handlers are ever past the claim on one event while both still within the limit. */
  lemma TwoNeverHold(tr: seq<State>, acts: seq<Action>, limit: Time, i: nat, t: Tid, u: Tid)
    requires TimelyRun(tr, acts, limit) && limit <= STALE_WEBHOOK && i < |tr|
    ensures !BothHold(tr[i], limit, t, u)
  {
    TimelyHolders(tr, acts, limit, i);
    if t in tr[i].hooks && u in tr[i].hooks && t != u {
      assert HolderOk(tr[i].db, limit, tr[i].hooks[t]) && HolderOk(tr[i].db, limit, tr[i].hooks[u]);
      assert Apart(tr[i].hooks[t], tr[i].hooks[u]);
    }
  }

  /** So with the router's 120 seconds, whether or not handlers run on past them. */
  lemma NoTwoHolders(tr: seq<State>, acts: seq<Action>, i: nat, t: Tid, u: Tid)
    requires TimelyRun(tr, acts, WEBHOOK_TIMEOUT) && i < |tr| && t in tr[i].hooks && u in tr[i].hooks
    requires PastClaim(tr[i].hooks[t]) && WithinLimit(tr[i].hooks[t], WEBHOOK_TIMEOUT, tr[i].db.now)
    requires PastClaim(tr[i].hooks[u]) && WithinLimit(tr[i].hooks[u], WEBHOOK_TIMEOUT, tr[i].db.now)
    requires tr[i].hooks[t].event == tr[i].hooks[u].event
    ensures t == u
  {
    TwoNeverHold(tr, acts, WEBHOOK_TIMEOUT, i, t, u);
  }

  // ---- Who may claim a new event ---------------------------------------------------

  /** While a handled event is `received`, no two handlers are about to claim it. */
  ghost predicate SoleClaimer(s: State, e: EventId) {
    e in s.db.events && s.db.events[e].status == Received ==>
      forall t, u :: t in s.hooks && u in s.hooks && Claiming(s.hooks[t], e) && Claiming(s.hooks[u], e) ==> t == u
  }

  predicate Claiming(h: Hook, e: EventId) {
    h.event == e && h.pc.TryClaim?
  }

  /** A handler gets to the claim of a received event only by inserting it. */
  lemma ClaimingAfter(db: Db, p: Payload, h: Hook, c: HookChoice)
    requires HookOk(db, p, h) && Claiming(HookNext(db, p, h, c), h.event)
    requires h.event in HookDb(db, p, h, c).events && HookDb(db, p, h, c).events[h.event].status == Received
    ensures h.pc.Insert? && h.event !in db.events
  {
  }

  lemma SoleClaimerHook(s: State, t: Tid, c: HookChoice, e: EventId)
    requires HooksOk(s) && SoleClaimer(s, e) && Enabled(s, HookStep(t, c))
    ensures SoleClaimer(Step(s, HookStep(t, c)), e)
  {
    var s' := Step(s, HookStep(t, c));
    HookStepShape(s, t, c);
    HookKnown(s, t);
    if e in s'.db.events && s'.db.events[e].status == Received {
      if s.hooks[t].event != e {
        if e in s.db.events {
          OwnRowOnly(s.db, s.payloads[s.hooks[t].event], s.hooks[t], c, e);
        }
      } else if Claiming(s'.hooks[t], e) {
        ClaimingAfter(s.db, s.payloads[e], s.hooks[t], c);
      }
      forall u | u in s.hooks && Claiming(s.hooks[u], e)
        ensures e in s.db.events
      {
        HookKnown(s, u);
      }
      if e in s.db.events {
        ReceivedBefore(s.db, s.payloads[s.hooks[t].event], s.hooks[t], c, e);
      }
    }
  }

  lemma ReceivedBefore(db: Db, p: Payload, h: Hook, c: HookChoice, e: EventId)
    requires HookOk(db, p, h) && e in db.events
    requires e in HookDb(db, p, h, c).events && HookDb(db, p, h, c).events[e].status == Received
    ensures db.events[e].status == Received
  {
    if e != h.event {
      OwnRowOnly(db, p, h, c, e);
    }
  }

  lemma SoleClaimerKept(s: State, a: Action, e: EventId)
    requires HooksOk(s) && SoleClaimer(s, e) && Enabled(s, a)
    ensures SoleClaimer(Step(s, a), e)
  {
    match a {
      case HookStep(t, c) => SoleClaimerHook(s, t, c, e);
      case CartStep(t, c) => CartStepShape(s, t, c);
      case _ =>
    }
  }

  /** Only one handler can ever be about to claim a `received` event: the one that
      inserted it. Should it die there, or its claim fail, the event is stranded. */
  lemma {:induction false} ReceivedHasOneClaimer(tr: seq<State>, acts: seq<Action>, i: nat, e: EventId)
    requires Run(tr, acts) && i < |tr|
    ensures SoleClaimer(tr[i], e)
  {
    if i > 0 {
      ReceivedHasOneClaimer(tr, acts, i - 1, e);
      RunInv(tr, acts, i - 1);
      assert StepAt(tr, acts, i - 1);
      SoleClaimerKept(tr[i - 1], acts[i - 1], e);
    }
  }

  // ---- Lost events -----------------------------------------------------------------

  /** The event is recorded as received and no handler is about to claim or ignore it. */
  ghost predicate Stranded(s: State, e: EventId) {
    && e in s.db.events && s.db.events[e].status == Received
    && forall t :: t in s.hooks && s.hooks[t].event == e ==> !s.hooks[t].pc.TryClaim? && !s.hooks[t].pc.Ignore?
  }

  lemma StrandedHook(db: Db, p: Payload, h: Hook, c: HookChoice)
    requires HookOk(db, p, h) && HookEnabled(db, p, h, c) && !h.pc.TryClaim? && !h.pc.Ignore?
    requires h.event in db.events && db.events[h.event].status == Received
    ensures HookDb(db, p, h, c).events == db.events
    ensures var h' := HookNext(db, p, h, c); !h'.pc.TryClaim? && !h'.pc.Ignore?
  {
  }

  lemma StrandedHookStep(s: State, t: Tid, c: HookChoice, e: EventId)
    requires HooksOk(s) && Enabled(s, HookStep(t, c)) && Stranded(s, e)
    ensures Stranded(Step(s, HookStep(t, c)), e)
  {
    HookStepShape(s, t, c);
    HookKnown(s, t);
    if s.hooks[t].event == e {
      StrandedHook(s.db, s.payloads[e], s.hooks[t], c);
    } else {
      OwnRowOnly(s.db, s.payloads[s.hooks[t].event], s.hooks[t], c, e);
    }
  }

  lemma StrandedKept(s: State, a: Action, e: EventId)
    requires HooksOk(s) && Enabled(s, a) && Stranded(s, e)
    ensures Stranded(Step(s, a), e)
  {
    match a {
      case HookStep(t, c) => StrandedHookStep(s, t, c, e);
      case CartStep(t, c) => CartStepShape(s, t, c);
      case _ =>
    }
  }

  lemma StrandedUnanswered(s: State, e: EventId)
    requires EventsOk(s) && HooksOk(s) && Stranded(s, e)
    ensures e in s.payloads && (Handled(s.payloads[e]) ==>
              forall t :: t in s.hooks && s.hooks[t].event == e ==> s.hooks[t].pc != Done(Acknowledged))
  {
    forall t | t in s.hooks && s.hooks[t].event == e && Handled(s.payloads[e])
      ensures s.hooks[t].pc != Done(Acknowledged)
    {
      HookKnown(s, t);
    }
  }

  /** A `received` event whose inserter is gone stays `received` for ever, whatever is
      delivered, and no delivery of a handled type is ever acknowledged. */
  lemma {:induction false} StrandedForever(tr: seq<State>, acts: seq<Action>, i: nat, j: nat, e: EventId)
    requires Run(tr, acts) && i <= j < |tr| && Stranded(tr[i], e)
    ensures Stranded(tr[j], e)
    ensures e in tr[j].payloads && (Handled(tr[j].payloads[e]) ==>
              forall t :: t in tr[j].hooks && tr[j].hooks[t].event == e ==> tr[j].hooks[t].pc != Done(Acknowledged))
    decreases j - i
  {
    if i < j {
      StrandedForever(tr, acts, i, j - 1, e);
      RunInv(tr, acts, j - 1);
      assert StepAt(tr, acts, j - 1);
      StrandedKept(tr[j - 1], acts[j - 1], e);
    }
    RunInv(tr, acts, j);
    StrandedUnanswered(tr[j], e);
  }

  /** Types the service does not handle never get past `received` and `ignored`. */
  lemma UnhandledOnlyIgnored(tr: seq<State>, acts: seq<Action>, i: nat, e: EventId)
    requires Run(tr, acts) && i < |tr| && e in tr[i].db.events
    ensures e in tr[i].payloads
    ensures !Handled(tr[i].payloads[e]) ==> tr[i].db.events[e].status in {Received, Ignored}
    ensures Handled(tr[i].payloads[e]) ==> tr[i].db.events[e].status != Ignored
  {
    RunInv(tr, acts, i);
    assert EventOk(tr[i].db.orders, tr[i].payloads[e], tr[i].db.events[e], tr[i].db.now);
  }
}
