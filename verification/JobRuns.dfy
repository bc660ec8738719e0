/** What the job store guarantees over whole runs, by any replicas in any order. */
module JobRuns {
  import opened Sets
  import opened Wrappers
  import opened JobModel
  import opened JobInvariant
  import opened JobPreservation

  ghost predicate Admissible(cfg: Config, s: Store, acts: seq<Action>)
    decreases |acts|
  {
    acts == [] || (Enabled(cfg, s, acts[0]) && Admissible(cfg, Act(cfg, s, acts[0]), acts[1..]))
  }

  ghost function Run(cfg: Config, s: Store, acts: seq<Action>): Store
    decreases |acts|
  {
    if acts == [] then s else Run(cfg, Act(cfg, s, acts[0]), acts[1..])
  }

  lemma ClockMonotone(cfg: Config, s: Store, a: Action)
    requires Enabled(cfg, s, a)
    ensures s.clock <= Act(cfg, s, a).clock
  {
    hide Plan;
  }

  lemma {:induction false} RunKeepsInv(cfg: Config, s: Store, acts: seq<Action>)
    requires cfg.Valid() && Inv(cfg, s) && Admissible(cfg, s, acts)
    ensures Inv(cfg, Run(cfg, s, acts))
    decreases |acts|
  {
    hide Inv, Enabled, Act;
    if acts != [] {
      ActKeepsInv(cfg, s, acts[0]);
      RunKeepsInv(cfg, Act(cfg, s, acts[0]), acts[1..]);
    }
  }

  /** Every state the deployment can reach from an empty Redis satisfies the invariant. */
  lemma ReachableInv(cfg: Config, acts: seq<Action>)
    requires cfg.Valid() && Admissible(cfg, EMPTY_STORE, acts)
    ensures Inv(cfg, Run(cfg, EMPTY_STORE, acts))
  {
    InitInv(cfg);
    RunKeepsInv(cfg, EMPTY_STORE, acts);
  }

  lemma {:induction false} RunSplit(cfg: Config, s: Store, a: seq<Action>, b: seq<Action>)
    requires Admissible(cfg, s, a) && Admissible(cfg, Run(cfg, s, a), b)
    ensures Admissible(cfg, s, a + b) && Run(cfg, s, a + b) == Run(cfg, Run(cfg, s, a), b)
    decreases |a|
  {
    hide Enabled, Act;
    if a == [] {
      assert a + b == b;
    } else {
      RunSplit(cfg, Act(cfg, s, a[0]), a[1..], b);
      assert (a + b)[1..] == a[1..] + b;
    }
  }

  // ---------- Indexes agree with the records

  /** The status of a record decides exactly which indexes it appears in. */
  lemma StatusDecidesIndexes(cfg: Config, acts: seq<Action>, id: Identity)
    requires cfg.Valid() && Admissible(cfg, EMPTY_STORE, acts)
    requires id in Run(cfg, EMPTY_STORE, acts).records
    ensures var s := Run(cfg, EMPTY_STORE, acts);
      var r := s.records[id];
      && (r.status.Queued? <==> id in s.Queue(id.kind))
      && (forall kind: Kind | id in s.Queue(kind) :: kind == id.kind)
      && (r.status.Processing? <==> id in s.running)
      && (r.status.Processing? <==> id in s.slots.Values)
      && (forall x | x in s.slots && s.slots[x] == id :: x.kind == id.kind)
      && (forall x, y | x in s.slots && y in s.slots && s.slots[x] == id && s.slots[y] == id :: x == y)
      && (r.status.Processing? ==> r.owner.Some? && r.startedAt.Some? && r.heartbeatAt.Some?)
      && (r.status.Terminal() <==> r.event.Some?)
      && (r.event.Some? ==> r.event.value.status == r.status && r.event.value.id == id)
      && (r.status.Terminal() && !r.published <==> id in s.pending)
  {
    hide Inv;
    ReachableInv(cfg, acts);
    IndexesOf(cfg, Run(cfg, EMPTY_STORE, acts), id);
  }

  lemma IndexesOf(cfg: Config, s: Store, id: Identity)
    requires Inv(cfg, s) && id in s.records
    ensures var r := s.records[id];
      && (r.status.Queued? <==> id in s.Queue(id.kind))
      && (forall kind: Kind | id in s.Queue(kind) :: kind == id.kind)
      && (r.status.Processing? <==> id in s.running)
      && (r.status.Processing? <==> id in s.slots.Values)
      && (forall x | x in s.slots && s.slots[x] == id :: x.kind == id.kind)
      && (forall x, y | x in s.slots && y in s.slots && s.slots[x] == id && s.slots[y] == id :: x == y)
      && (r.status.Processing? ==> r.owner.Some? && r.startedAt.Some? && r.heartbeatAt.Some?)
      && (r.status.Terminal() <==> r.event.Some?)
      && (r.event.Some? ==> r.event.value.status == r.status && r.event.value.id == id)
      && (r.status.Terminal() && !r.published <==> id in s.pending)
  {
    hide RecordsOk, QueueOk, OrderOk, SlotsOk, RunningOk, PendingOk, LatestOk, BuffersOk, BatchQueueOk, MetricsOk,
      ClaimsOk, TimesOk;
    QueueKinds(s, id, Process);
    QueueKinds(s, id, Story);
    SlotKinds(cfg, s, id);
    RunningKinds(cfg, s, id);
    OutboxKinds(cfg, s, id);
  }

  lemma SlotKinds(cfg: Config, s: Store, id: Identity)
    requires SlotsOk(cfg, s)
    ensures In(s, id, Processing) <==> id in s.slots.Values
    ensures forall x | x in s.slots && s.slots[x] == id :: x.kind == id.kind
    ensures forall x, y | x in s.slots && y in s.slots && s.slots[x] == id && s.slots[y] == id :: x == y
  {}

  lemma RunningKinds(cfg: Config, s: Store, id: Identity)
    requires RunningOk(cfg, s)
    ensures id in s.running <==> In(s, id, Processing)
  {}

  lemma OutboxKinds(cfg: Config, s: Store, id: Identity)
    requires RecordsOk(cfg, s) && PendingOk(s) && id in s.records
    ensures s.records[id].id == id && Wf(cfg, s.records[id])
    ensures id in s.pending <==> Unpublished(s, id)
  {}

  lemma QueueKinds(s: Store, id: Identity, kind: Kind)
    requires QueueOk(s, kind)
    ensures id in s.Queue(kind) <==> In(s, id, Queued) && id.kind == kind
  {}

  // ---------- Concurrency limits

  lemma {:induction false} InjectionSize<T, U>(a: set<T>, b: set<U>, f: T -> U)
    requires forall x | x in a :: f(x) in b
    requires forall x, y | x in a && y in a && f(x) == f(y) :: x == y
    ensures |a| <= |b|
    decreases |a|
  {
    if a != {} {
      var x :| x in a;
      InjectionSize(a - {x}, b - {f(x)}, f);
    }
  }

  function RunningOf(s: Store, kind: Kind): set<Identity> {
    set id | id in s.records && In(s, id, Processing) && id.kind == kind
  }

  ghost function SlotOf(s: Store, id: Identity): nat {
    if exists x :: x in s.slots && s.slots[x] == id then
      var x :| x in s.slots && s.slots[x] == id; x.index
    else 0
  }

  /** Occupied slots and PROCESSING records of a kind are in bijection, and within its limit. */
  lemma SlotsMatchRunning(cfg: Config, s: Store, kind: Kind)
    requires cfg.Valid() && Inv(cfg, s)
    ensures |RunningOf(s, kind)| == |Occupied(s, kind)| <= cfg.Limit(kind)
  {
    hide QueueOk, OrderOk, RunningOk, PendingOk, LatestOk, BuffersOk, BatchQueueOk, MetricsOk, ClaimsOk, TimesOk;
    var ids, taken := RunningOf(s, kind), Occupied(s, kind);
    forall id | id in ids ensures SlotOf(s, id) in taken && s.slots[Slot(kind, SlotOf(s, id))] == id {
      assert In(s, id, Processing);
      var x :| x in s.slots && s.slots[x] == id;
      assert x == Slot(kind, x.index);
    }
    InjectionSize(ids, taken, id => SlotOf(s, id));
    InjectionSize(taken, ids, i => if Slot(kind, i) in s.slots then s.slots[Slot(kind, i)] else Identity(kind, 0, ""));
    SubsetSize(taken, Below(cfg.Limit(kind)));
  }

  /** At most one process job and at most four story jobs run, in every reachable state. */
  lemma ConcurrencyBounded(cfg: Config, acts: seq<Action>)
    requires cfg.Valid() && Admissible(cfg, EMPTY_STORE, acts)
    ensures var s := Run(cfg, EMPTY_STORE, acts);
      && |RunningOf(s, Process)| <= 1
      && |RunningOf(s, Story)| <= cfg.storyConcurrency <= 4
      && |s.running| <= 5
  {
    hide Inv;
    var s := Run(cfg, EMPTY_STORE, acts);
    ReachableInv(cfg, acts);
    RunningBound(cfg, s);
  }

  /** Few enough records run that the 100-row scan of `recover` sees every one of them. */
  lemma RunningBound(cfg: Config, s: Store)
    requires cfg.Valid() && Inv(cfg, s)
    ensures |RunningOf(s, Process)| <= 1 && |RunningOf(s, Story)| <= cfg.storyConcurrency <= 4
    ensures |s.running| <= 5 < SCAN_ROWS
  {
    hide QueueOk, OrderOk, SlotsOk, PendingOk, LatestOk, BuffersOk, BatchQueueOk, MetricsOk, ClaimsOk, TimesOk;
    SlotsMatchRunning(cfg, s, Process);
    SlotsMatchRunning(cfg, s, Story);
    assert forall id :: id in s.running <==> In(s, id, Processing);
    assert s.running.Keys == RunningOf(s, Process) + RunningOf(s, Story);
  }

  const SCAN_ROWS := 100

  // ---------- Fencing

  /** For a PROCESSING record its owner may write exactly while `recover` may not fail it. */
  lemma LeaseIsFenced(cfg: Config, acts: seq<Action>, id: Identity, now: int)
    requires cfg.Valid() && Admissible(cfg, EMPTY_STORE, acts)
    requires In(Run(cfg, EMPTY_STORE, acts), id, Processing)
    ensures var s := Run(cfg, EMPTY_STORE, acts);
      && s.records[id].owner.Some?
      && id in s.running
      && (Owns(cfg, s.records[id], s.records[id].owner.value, now) <==> !Updated(cfg, Recover, s.records[id], now).Save?)
      && (Updated(cfg, Recover, s.records[id], now).Save? <==> s.running[id] <= now)
  {
    ReachableInv(cfg, acts);
    FenceOf(cfg, Run(cfg, EMPTY_STORE, acts), id, now);
  }

  lemma FenceOf(cfg: Config, s: Store, id: Identity, now: int)
    requires Inv(cfg, s) && In(s, id, Processing)
    ensures s.records[id].owner.Some? && id in s.running && s.records[id].id == id
    ensures Owns(cfg, s.records[id], s.records[id].owner.value, now) <==> !Updated(cfg, Recover, s.records[id], now).Save?
    ensures Updated(cfg, Recover, s.records[id], now).Save? <==> s.running[id] <= now
  {
    hide QueueOk, OrderOk, SlotsOk, PendingOk, LatestOk, BuffersOk, BatchQueueOk, MetricsOk, ClaimsOk, TimesOk;
  }

  // ---------- How one record may change

  /** The changes a record can go through; the relation is reflexive and transitive. */
  predicate Evolves(r: JobRecord, n: JobRecord) {
    && n.id == r.id && n.createdAt == r.createdAt && n.resultTopic == r.resultTopic
    && (r.status.Terminal() ==> n.status == r.status && n.event == r.event)
    && r.publishUntil <= n.publishUntil
    && (r.published ==> n.published)
    && (r.cancelRequested ==>
          && n.cancelRequested
          && (!r.status.Terminal() ==> !n.status.Completed?)
          && (r.status.Processing? ==> !n.status.Queued?)
          && (!n.status.Terminal() ==> n.step == r.step && n.done == r.done))
  }

  lemma UpdateEvolves(cfg: Config, u: Update, r: JobRecord, now: int)
    requires cfg.Valid() && Wf(cfg, r) && Updated(cfg, u, r, now).Save? && 0 <= now
    ensures Evolves(r, Updated(cfg, u, r, now).record)
  {}

  ghost predicate Grows(s: Store, t: Store) {
    && (forall id | id in s.records :: id in t.records && Evolves(s.records[id], t.records[id]))
    && s.ignored <= t.ignored
    && s.sequence <= t.sequence
    && (forall id | id in s.order :: id in t.order && t.order[id] == s.order[id])
    && (forall id | id in t.order && id !in s.order :: t.order[id] > s.sequence)
  }

  lemma GrowsTransitive(a: Store, b: Store, c: Store)
    requires Grows(a, b) && Grows(b, c)
    ensures Grows(a, c)
  {
    forall id | id in a.records ensures id in c.records && Evolves(a.records[id], c.records[id]) {
      EvolvesTransitive(a.records[id], b.records[id], c.records[id]);
    }
  }

  lemma EvolvesTransitive(a: JobRecord, b: JobRecord, c: JobRecord)
    requires Evolves(a, b) && Evolves(b, c)
    ensures Evolves(a, c)
  {}

  lemma PutGrows(s: Store, t: Store, r: JobRecord)
    requires t.records == s.records[r.id := r] && r.id in s.records && Evolves(s.records[r.id], r)
    requires t.ignored == s.ignored && t.sequence == s.sequence && t.order == s.order
    ensures Grows(s, t)
  {
    hide Evolves;
    forall id | id in s.records ensures Evolves(s.records[id], t.records[id]) {
      EvolvesReflexive(s.records[id]);
    }
  }

  lemma EvolvesReflexive(r: JobRecord)
    ensures Evolves(r, r)
  {}

  lemma SameGrows(s: Store, t: Store)
    requires t.records == s.records && s.ignored <= t.ignored && t.sequence == s.sequence && t.order == s.order
    ensures Grows(s, t)
  {}

  lemma AcceptWrites(cfg: Config, s: Store, q: Request, now: int)
    requires Accepts(cfg, s, q, now)
    ensures q.id !in s.records
    ensures var t := Registered(cfg, s, q, now);
      && t.records == s.records[q.id := NewRecord(cfg, q, now)] && t.ignored == s.ignored
      && t.sequence == s.sequence + 1 && t.order == s.order[q.id := s.sequence + 1]
  {
    hide NewRecord, NextBuffers, NextBatchQueue, NextQueue, NextSlots, ObserveEnd, Live;
    NewRecordOk(cfg, q, now);
  }

  lemma AcceptGrows(cfg: Config, s: Store, q: Request, now: int)
    requires OrderOk(s) && Accepts(cfg, s, q, now)
    ensures Grows(s, Registered(cfg, s, q, now))
  {
    hide NewRecord, Registered, Accepts;
    AcceptWrites(cfg, s, q, now);
  }

  lemma ActGrows(cfg: Config, s: Store, a: Action)
    requires cfg.Valid() && Inv(cfg, s) && Enabled(cfg, s, a)
    ensures Grows(s, Act(cfg, s, a))
  {
    hide QueueOk, OrderOk, SlotsOk, RunningOk, PendingOk, LatestOk, BuffersOk, BatchQueueOk, MetricsOk, ClaimsOk,
      TimesOk, Wf, Grows, Evolves, Updated, FirstFree, StaleSlots, NewRecord, NextBuffers, NextBatchQueue,
      ObserveEnd, NextQueue, NextSlots, SlotsHeldBy, PlanChange, PlanClaim, PlanAcknowledge, Conflicts, PhotoIds,
      Live, RecordsOk;
    match a
    case Do(Register(q), now) =>
      if PlanRegister(cfg, q, now, s).Exec? {
        if Accepts(cfg, s, q, now) { AcceptGrows(cfg, s, q, now); } else { SameGrows(s, Act(cfg, s, a)); }
      } else { SameGrows(s, s); }
    case Do(Claim(kind, token), now) => ClaimGrows(cfg, s, kind, token, now);
    case Do(Change(id, u), now) => ChangeGrows(cfg, s, id, u, now);
    case Do(Stage(id, topic, batch, photos), now) => SameGrows(s, Act(cfg, s, a));
    case Do(Acknowledge(id, publisher), _) => AcknowledgeGrows(cfg, s, id, publisher);
    case Tick(to) => SameGrows(s, Act(cfg, s, a));
    case Expire(id) => SameGrows(s, Act(cfg, s, a));
    case PopBatch(e) => SameGrows(s, Act(cfg, s, a));
  }

  lemma ChangeGrows(cfg: Config, s: Store, id: Identity, u: Update, now: int)
    requires cfg.Valid() && RecordsOk(cfg, s) && 0 <= now
    ensures Grows(s, Effect(cfg, PlanChange(cfg, id, u, now, s), s))
  {
    hide Grows, Evolves, Updated, Wf;
    if PlanChange(cfg, id, u, now, s).Exec? {
      var r := Updated(cfg, u, s.records[id], now).record;
      UpdateEvolves(cfg, u, s.records[id], now);
      UpdatedIsLegal(cfg, u, s.records[id], now);
      ChangeRest(cfg, s, u, r, now);
      PutGrows(s, ChangedStore(cfg, s, u, r, now), r);
    } else { SameGrows(s, s); }
  }

  lemma StartedEvolves(cfg: Config, r: JobRecord, token: Token, now: int)
    requires Wf(cfg, r) && r.status.Queued?
    ensures Evolves(r, Started(r, token, now))
  {}

  lemma ClaimGrows(cfg: Config, s: Store, kind: Kind, token: Token, now: int)
    requires cfg.Valid() && Inv(cfg, s)
    ensures Grows(s, Effect(cfg, PlanClaim(cfg, kind, token, now, s), s))
  {
    hide QueueOk, OrderOk, SlotsOk, RunningOk, PendingOk, LatestOk, BuffersOk, BatchQueueOk, MetricsOk, ClaimsOk,
      TimesOk, Wf, Grows, Evolves, FirstFree, StaleSlots, StartDelta, Apply;
    NoStaleSlots(cfg, s, kind);
    if PlanClaim(cfg, kind, token, now, s).Exec? {
      HeadIsQueued(s, kind);
      var id := Head(s.Queue(kind));
      StartedEvolves(cfg, s.records[id], token, now);
      StartRest(cfg, s, id, token, FirstFree(s, kind, 0), now);
      StartWrites(cfg, s, id, token, FirstFree(s, kind, 0), now);
      PutGrows(s, StartedStore(cfg, s, Started(s.records[id], token, now), FirstFree(s, kind, 0), now),
               Started(s.records[id], token, now));
    } else { SameGrows(s, s); }
  }

  lemma StartWrites(cfg: Config, s: Store, id: Identity, token: Token, index: nat, now: int)
    requires id in s.records && s.records[id].id == id && id in s.Queue(id.kind)
    ensures var r := Started(s.records[id], token, now);
      StartedStore(cfg, s, r, index, now).records == s.records[id := r]
  {}

  lemma AcknowledgeGrows(cfg: Config, s: Store, id: Identity, publisher: string)
    requires RecordsOk(cfg, s)
    ensures Grows(s, Effect(cfg, PlanAcknowledge(id, publisher, s), s))
  {
    hide Grows, Wf;
    if PlanAcknowledge(id, publisher, s).Exec? {
      PutGrows(s, Effect(cfg, PlanAcknowledge(id, publisher, s), s), s.records[id].(published := true));
    } else { SameGrows(s, s); }
  }

  lemma {:induction false} RunGrows(cfg: Config, s: Store, acts: seq<Action>)
    requires cfg.Valid() && Inv(cfg, s) && Admissible(cfg, s, acts)
    ensures Grows(s, Run(cfg, s, acts))
    decreases |acts|
  {
    hide Inv, Enabled, Act, Grows;
    if acts == [] {
      SameGrows(s, s);
    } else {
      var t := Act(cfg, s, acts[0]);
      ActKeepsInv(cfg, s, acts[0]);
      ActGrows(cfg, s, acts[0]);
      RunGrows(cfg, t, acts[1..]);
      GrowsTransitive(s, t, Run(cfg, s, acts));
    }
  }
}
