/** Every action of the job store keeps `Inv`. */
module JobPreservation {
  import opened Sets
  import opened Wrappers
  import opened JobModel
  import opened JobInvariant

  lemma InitInv(cfg: Config)
    requires cfg.Valid()
    ensures Inv(cfg, EMPTY_STORE)
  {
    forall kind: Kind, outcome: Status ensures Ended(EMPTY_STORE.records, kind, outcome) == {} {}
  }

  // ---------- change

  /** What every `update` closure keeps, whatever it was asked to do. */
  predicate LegalChange(cfg: Config, u: Update, r: JobRecord, n: JobRecord, now: int) {
    && Wf(cfg, n) && n.id == r.id && n.createdAt == r.createdAt
    && (r.cancelRequested ==> n.cancelRequested && !n.status.Queued?)
    && (r.status.Terminal() ==>
          && u.ClaimResult? && !n.published && n.publishUntil == now + cfg.publishLease
          && n == r.(publishOwner := n.publishOwner, publishUntil := n.publishUntil))
    && (!r.status.Terminal() ==>
          n.publishOwner == r.publishOwner && n.publishUntil == r.publishUntil && !n.published)
    && (n.status.Processing? ==> r.status.Processing? && n.owner == r.owner && n.startedAt == r.startedAt)
    && (n.status.Queued? ==> u.ReturnUnstarted? && r.status.Processing? && r.owner == Some(u.owner))
    && (n.heartbeatAt == r.heartbeatAt || n.heartbeatAt == Some(now) || n.heartbeatAt == None)
    && (n.startedAt == r.startedAt || n.status.Queued?)
    && (n.status.Completed? && !r.status.Terminal() ==> !r.cancelRequested && u.Finish?)
  }

  lemma UpdatedIsLegal(cfg: Config, u: Update, r: JobRecord, now: int)
    requires Wf(cfg, r) && Updated(cfg, u, r, now).Save?
    ensures LegalChange(cfg, u, r, Updated(cfg, u, r, now).record, now)
  {
  }

  lemma TimesCarried(s: Store, u: Update, r: JobRecord, now: int, cfg: Config)
    requires r.id in s.records && TimesOk(s) && Timely(s, Change(r.id, u), now)
    requires LegalChange(cfg, u, s.records[r.id], r, now)
    ensures r.createdAt <= now
    ensures r.startedAt.Some? ==> r.createdAt <= r.startedAt.value <= now
    ensures r.heartbeatAt.Some? && r.startedAt.Some? ==> r.startedAt.value <= r.heartbeatAt.value <= now
  {}

  lemma OrderCovers(s: Store, id: Identity)
    requires OrderOk(s) && id in s.records
    ensures id in s.order
  {}

  lemma ClaimScore(s: Store, t: Token)
    requires ClaimsOk(s) && t in s.claimed
    ensures s.claimed[t].id in s.order && s.claimed[t].score == s.order[s.claimed[t].id]
  {}

  lemma NotPending(s: Store, id: Identity)
    requires PendingOk(s) && !Unpublished(s, id)
    ensures s.pending - {id} == s.pending
  {}

  lemma NotQueued(s: Store, id: Identity)
    requires QueueOk(s, Process) && QueueOk(s, Story) && !In(s, id, Queued)
    ensures s.Queue(id.kind) - {id} == s.Queue(id.kind)
  {}

  lemma NotRunning(cfg: Config, s: Store, id: Identity)
    requires RunningOk(cfg, s) && !In(s, id, Processing)
    ensures s.running - {id} == s.running
  {}

  lemma HoldsNoSlot(cfg: Config, s: Store, id: Identity)
    requires SlotsOk(cfg, s) && !In(s, id, Processing)
    ensures SlotsHeldBy(s.slots, id.kind, id) == {}
  {}

  ghost function ChangedStore(cfg: Config, s: Store, u: Update, r: JobRecord, now: int): Store
    requires r.id in s.records
  {
    Apply(cfg, ChangeDelta(cfg, s.records[r.id], r, u, now, s), s)
  }

  lemma ChangeQueues(cfg: Config, s: Store, u: Update, r: JobRecord, now: int)
    requires r.id in s.records && r.id in s.order
    requires LegalChange(cfg, u, s.records[r.id], r, now)
    requires r.status.Queued? ==> u.score == s.order[r.id]
    requires r.status.Processing? ==> s.Queue(r.id.kind) - {r.id} == s.Queue(r.id.kind)
    ensures var t := ChangedStore(cfg, s, u, r, now);
      t.order == s.order
      && t.processQueue == Requeued(s, r, t.order, Process) && t.storyQueue == Requeued(s, r, t.order, Story)
  {
    hide SlotsHeldBy, ObserveEnd, NextBuffers, NextBatchQueue, NextSlots, Wf;
  }

  lemma ChangeDeadlines(cfg: Config, s: Store, u: Update, r: JobRecord, now: int)
    requires r.id in s.records && LegalChange(cfg, u, s.records[r.id], r, now)
    requires !r.status.Terminal() ==> s.pending - {r.id} == s.pending
    ensures var t := ChangedStore(cfg, s, u, r, now);
      && Puts(s, r, t)
      && t.running == (if r.status.Processing? then s.running[r.id := Deadline(cfg, r)] else s.running - {r.id})
      && t.pending ==
         (if r.status.Terminal() && !r.published then s.pending[r.id := Max(now, r.publishUntil)]
          else s.pending - {r.id})
  {
    hide SlotsHeldBy, ObserveEnd, NextBuffers, NextBatchQueue, NextSlots, NextQueue;
  }

  lemma ChangeReindexes(cfg: Config, s: Store, u: Update, r: JobRecord, now: int)
    requires Inv(cfg, s) && r.id in s.records
    requires LegalChange(cfg, u, s.records[r.id], r, now) && CallerOk(s, Change(r.id, u))
    ensures Reindexed(cfg, s, r, ChangedStore(cfg, s, u, r, now), Max(now, r.publishUntil))
  {
    hide RecordsOk, QueueOk, OrderOk, SlotsOk, RunningOk, PendingOk, LatestOk, BuffersOk, BatchQueueOk, MetricsOk,
      ClaimsOk, TimesOk, ChangedStore, Requeued;
    OrderCovers(s, r.id);
    if u.ReturnUnstarted? { ClaimScore(s, u.owner); }
    if !r.status.Terminal() { NotPending(s, r.id); }
    if r.status.Processing? { NotQueued(s, r.id); }
    ChangeQueues(cfg, s, u, r, now);
    ChangeDeadlines(cfg, s, u, r, now);
  }

  lemma ChangeRegistration(cfg: Config, s: Store, u: Update, r: JobRecord, now: int)
    requires r.id in s.records && LegalChange(cfg, u, s.records[r.id], r, now)
    ensures SameRegistration(s, r, ChangedStore(cfg, s, u, r, now))
    ensures ChangedStore(cfg, s, u, r, now).claimed == s.claimed
  {
    hide ObserveEnd, Wf, NextQueue, NextSlots, SlotsHeldBy, Deadline;
  }

  lemma ChangeRest(cfg: Config, s: Store, u: Update, r: JobRecord, now: int)
    requires r.id in s.records && LegalChange(cfg, u, s.records[r.id], r, now)
    ensures SameRegistration(s, r, ChangedStore(cfg, s, u, r, now))
    ensures ChangedStore(cfg, s, u, r, now).claimed == s.claimed
    ensures ChangedStore(cfg, s, u, r, now).slots ==
            if r.status.Processing? then s.slots else s.slots - SlotsHeldBy(s.slots, r.id.kind, r.id)
    ensures ChangedStore(cfg, s, u, r, now).metrics ==
            if r.status.Terminal() && !s.records[r.id].status.Terminal() then ObserveEnd(s.metrics, r, now)
            else s.metrics
  {
    hide ObserveEnd, Wf, NextQueue, NextBuffers, NextBatchQueue, SlotsHeldBy, Deadline, SameRegistration;
    ChangeRegistration(cfg, s, u, r, now);
  }

  lemma ChangeKeeps(cfg: Config, s: Store, u: Update, r: JobRecord, now: int)
    requires cfg.Valid() && Inv(cfg, s) && r.id in s.records
    requires LegalChange(cfg, u, s.records[r.id], r, now)
    requires Timely(s, Change(r.id, u), now) && CallerOk(s, Change(r.id, u))
    ensures Inv(cfg, ChangedStore(cfg, s, u, r, now))
  {
    hide RecordsOk, QueueOk, OrderOk, SlotsOk, RunningOk, PendingOk, LatestOk, BuffersOk, BatchQueueOk, MetricsOk,
      ClaimsOk, TimesOk, SlotsHeldBy, ObserveEnd, ChangedStore, Requeued, Deadline, Wf;
    var t := ChangedStore(cfg, s, u, r, now);
    ChangeReindexes(cfg, s, u, r, now);
    ChangeRest(cfg, s, u, r, now);
    ReindexedOk(cfg, s, r, t, Max(now, r.publishUntil));
    SameRegistrationOk(cfg, s, r, t);
    if r.status.Processing? { PutSlotsSame(cfg, s, r, t); } else { PutSlotsReleased(cfg, s, r, t); }
    if r.status.Terminal() && !s.records[r.id].status.Terminal() { PutMetricsEnded(s, r, t, now); }
    else { PutMetricsSame(s, r, t); }
    PutClaims(s, r, t);
    TimesCarried(s, u, r, now, cfg);
    PutTimes(s, r, t, now);
  }

  lemma ChangeKeepsInv(cfg: Config, s: Store, id: Identity, u: Update, now: int)
    requires cfg.Valid() && Inv(cfg, s) && Timely(s, Change(id, u), now) && CallerOk(s, Change(id, u))
    ensures Inv(cfg, Effect(cfg, PlanChange(cfg, id, u, now, s), s))
  {
    if PlanChange(cfg, id, u, now, s).Exec? {
      UpdatedIsLegal(cfg, u, s.records[id], now);
      ChangeKeeps(cfg, s, u, Updated(cfg, u, s.records[id], now).record, now);
    }
  }

  // ---------- register

  lemma NewRecordOk(cfg: Config, q: Request, now: int)
    ensures var r := NewRecord(cfg, q, now);
      && Wf(cfg, r) && r.id == q.id && r.createdAt == now
      && (r.status.Queued? || r.status.Failed?)
      && r.publishOwner == None && r.publishUntil == 0 && !r.published && r.startedAt == None && r.heartbeatAt == None && r.owner == None
  {}

  lemma RegisterOrder(s: Store, r: JobRecord, t: Store)
    requires OrderOk(s) && Puts(s, r, t) && r.id !in s.records
    requires t.sequence == s.sequence + 1 && t.order == s.order[r.id := t.sequence]
    ensures OrderOk(t)
    ensures forall id | id in s.order :: id in t.order && t.order[id] == s.order[id]
  {}

  lemma RegisterLatest(s: Store, r: JobRecord, t: Store)
    requires LatestOk(s) && Puts(s, r, t) && r.id !in s.records
    requires t.latest == s.latest[TripOf(r.id) := r.id]
    requires TripOf(r.id) in s.latest ==> !Live(s, s.latest[TripOf(r.id)])
    ensures LatestOk(t)
  {
    forall id | Live(t, id) && id != r.id ensures TripOf(id) in t.latest && t.latest[TripOf(id)] == id {
      assert Live(s, id);
    }
  }

  /** Closing an execution for staging: its buffer and the queue entries of that buffer go away. */
  lemma CloseStaging(cfg: Config, s: Store, id: Identity, t: Store)
    requires BuffersOk(s) && BatchQueueOk(cfg, s)
    requires t.buffers == s.buffers - {id} && t.clock == s.clock
    requires t.bufferTouched == if id in s.buffers then s.bufferTouched[id := s.clock] else s.bufferTouched
    requires t.batchQueue.Keys <= s.batchQueue.Keys
    requires forall e | e in t.batchQueue :: t.batchQueue[e] == s.batchQueue[e]
    requires t.ignored !! t.records.Keys && Closing(t, id)
    requires forall other | other != id :: Closing(t, other) <==> Closing(s, other)
    ensures BuffersOk(t) && BatchQueueOk(cfg, t)
  {
    hide BuffersOk, BatchQueueOk, Closing;
    ClosedBuffers(s, id, t);
    ClocksOk(cfg, s);
    forall e | e in t.batchQueue ensures EntryOk(cfg, t, e) { OldEntry(cfg, s, e); }
    EntriesOk(cfg, t);
  }

  lemma ClosedBuffers(s: Store, id: Identity, t: Store)
    requires BuffersOk(s)
    requires t.buffers == s.buffers - {id}
    requires t.bufferTouched == if id in s.buffers then s.bufferTouched[id := s.clock] else s.bufferTouched
    requires t.ignored !! t.records.Keys
    requires forall other | other != id :: Closing(t, other) <==> Closing(s, other)
    ensures BuffersOk(t)
  {
    forall other | other in t.buffers ensures BufferOk(t.buffers[other].content) && !Closing(t, other) {}
  }

  ghost function Registered(cfg: Config, s: Store, q: Request, now: int): Store
    requires PlanRegister(cfg, q, now, s).Exec?
  {
    Apply(cfg, PlanRegister(cfg, q, now, s).delta, s)
  }

  ghost predicate Accepts(cfg: Config, s: Store, q: Request, now: int) {
    PlanRegister(cfg, q, now, s).Exec? && PlanRegister(cfg, q, now, s).reply == Accepted
  }

  lemma AcceptQueues(cfg: Config, s: Store, q: Request, now: int)
    requires Accepts(cfg, s, q, now)
    requires s.Queue(q.id.kind) - {q.id} == s.Queue(q.id.kind)
    ensures var r, t := NewRecord(cfg, q, now), Registered(cfg, s, q, now);
      && t.sequence == s.sequence + 1 && t.order == s.order[q.id := s.sequence + 1]
      && r.id == q.id
      && t.processQueue == Requeued(s, r, t.order, Process) && t.storyQueue == Requeued(s, r, t.order, Story)
  {
    hide NewRecord, Live, NextBuffers, NextBatchQueue, NextSlots, ObserveEnd;
    NewRecordOk(cfg, q, now);
  }

  lemma AcceptDeadlines(cfg: Config, s: Store, q: Request, now: int)
    requires Accepts(cfg, s, q, now)
    requires s.running - {q.id} == s.running && s.pending - {q.id} == s.pending
    ensures var r, t := NewRecord(cfg, q, now), Registered(cfg, s, q, now);
      && Puts(s, r, t)
      && t.running == s.running - {r.id}
      && t.pending ==
         (if r.status.Terminal() && !r.published then s.pending[r.id := now] else s.pending - {r.id})
  {
    hide NewRecord, Live, NextBuffers, NextBatchQueue, NextSlots, ObserveEnd;
    NewRecordOk(cfg, q, now);
  }

  lemma AcceptReindexes(cfg: Config, s: Store, q: Request, now: int)
    requires Inv(cfg, s) && Accepts(cfg, s, q, now) && 0 <= now
    ensures Reindexed(cfg, s, NewRecord(cfg, q, now), Registered(cfg, s, q, now), now)
    ensures Registered(cfg, s, q, now).sequence == s.sequence + 1
    ensures Registered(cfg, s, q, now).order == s.order[q.id := s.sequence + 1]
  {
    hide RecordsOk, QueueOk, SlotsOk, RunningOk, PendingOk, LatestOk, BuffersOk, BatchQueueOk, MetricsOk,
      ClaimsOk, TimesOk, NewRecord, Live, Requeued, Registered;
    NewRecordOk(cfg, q, now);
    NotPending(s, q.id);
    NotQueued(s, q.id);
    NotRunning(cfg, s, q.id);
    AcceptQueues(cfg, s, q, now);
    AcceptDeadlines(cfg, s, q, now);
    NotOrdered(s, q.id);
  }

  lemma NotOrdered(s: Store, id: Identity)
    requires OrderOk(s) && id !in s.records
    ensures id !in s.order
  {}

  lemma AcceptRest(cfg: Config, s: Store, q: Request, now: int)
    requires Accepts(cfg, s, q, now)
    ensures var r, t := NewRecord(cfg, q, now), Registered(cfg, s, q, now);
      && t.latest == s.latest[TripOf(q.id) := q.id] && !(TripOf(q.id) in s.latest && Live(s, s.latest[TripOf(q.id)]))
      && t.ignored == s.ignored && t.claimed == s.claimed && t.slots == s.slots
      && t.metrics == if r.event.Some? then ObserveEnd(s.metrics, r, now) else s.metrics
  {
    hide NewRecord, Live, NextBuffers, NextBatchQueue, ObserveEnd;
    NewRecordOk(cfg, q, now);
    assert s.slots - {} == s.slots;
  }

  lemma RegisterStaging(cfg: Config, s: Store, q: Request, now: int)
    requires PlanRegister(cfg, q, now, s).Exec? && BuffersOk(s) && BatchQueueOk(cfg, s)
    ensures BuffersOk(Registered(cfg, s, q, now)) && BatchQueueOk(cfg, Registered(cfg, s, q, now))
  {
    hide NewRecord, BufferOk, Live, BatchQueueOk, ObserveEnd;
    NewRecordOk(cfg, q, now);
    CloseStaging(cfg, s, q.id, Registered(cfg, s, q, now));
  }

  lemma AcceptKeepsInv(cfg: Config, s: Store, q: Request, now: int)
    requires cfg.Valid() && Inv(cfg, s) && Timely(s, Register(q), now) && Accepts(cfg, s, q, now)
    ensures Inv(cfg, Registered(cfg, s, q, now))
  {
    hide RecordsOk, QueueOk, OrderOk, SlotsOk, RunningOk, PendingOk, LatestOk, BuffersOk, BatchQueueOk, MetricsOk,
      ClaimsOk, TimesOk, NewRecord, Registered, Requeued, Deadline, ObserveEnd;
    var r := NewRecord(cfg, q, now);
    var t := Registered(cfg, s, q, now);
    NewRecordOk(cfg, q, now);
    AcceptReindexes(cfg, s, q, now);
    AcceptRest(cfg, s, q, now);
    ReindexedOk(cfg, s, r, t, now);
    RegisterOrder(s, r, t);
    PutSlotsSame(cfg, s, r, t);
    RegisterLatest(s, r, t);
    RegisterStaging(cfg, s, q, now);
    if r.event.Some? { PutMetricsEnded(s, r, t, now); } else { PutMetricsSame(s, r, t); }
    PutClaims(s, r, t);
    PutTimes(s, r, t, now);
  }

  lemma IgnoreKeepsInv(cfg: Config, s: Store, q: Request, now: int)
    requires cfg.Valid() && Inv(cfg, s) && PlanRegister(cfg, q, now, s).Exec? && !Accepts(cfg, s, q, now)
    ensures Inv(cfg, Registered(cfg, s, q, now))
  {
    hide RecordsOk, QueueOk, OrderOk, SlotsOk, RunningOk, PendingOk, LatestOk, BuffersOk, BatchQueueOk, MetricsOk,
      ClaimsOk, TimesOk, NewRecord, Live;
    RegisterStaging(cfg, s, q, now);
    assert s.slots - {} == s.slots;
    Untouched(cfg, s, Registered(cfg, s, q, now));
  }

  // ---------- claim

  function Below(n: nat): (r: set<nat>)
    ensures |r| == n && forall i: nat :: i in r <==> i < n
  {
    if n == 0 then {} else Below(n - 1) + {n - 1}
  }

  lemma FirstFreeScans(s: Store, kind: Kind, i: nat)
    requires i <= SlotCount(kind)
    ensures var f := FirstFree(s, kind, i);
      && i <= f <= SlotCount(kind)
      && (forall j | i <= j < f :: Slot(kind, j) in s.slots)
      && (f < SlotCount(kind) ==> Slot(kind, f) !in s.slots)
    decreases SlotCount(kind) - i
  {
    if i < SlotCount(kind) && Slot(kind, i) in s.slots { FirstFreeScans(s, kind, i + 1); }
  }

  /** When `claim` reaches its search for a free slot there is one, below the limit of the kind. */
  lemma FreeSlotExists(cfg: Config, s: Store, kind: Kind)
    requires cfg.Valid() && |Occupied(s, kind)| < cfg.Limit(kind)
    ensures FirstFree(s, kind, 0) < cfg.Limit(kind) <= SlotCount(kind)
    ensures Slot(kind, FirstFree(s, kind, 0)) !in s.slots
  {
    var f := FirstFree(s, kind, 0);
    FirstFreeScans(s, kind, 0);
    SubsetSize(Below(f), Occupied(s, kind));
  }

  /** The clean-up for slots left behind by older images never has anything to do. */
  lemma NoStaleSlots(cfg: Config, s: Store, kind: Kind)
    requires SlotsOk(cfg, s)
    ensures StaleSlots(s, kind) == {}
  {}

  /** A queued identity is always a QUEUED record, so the head is never dropped. */
  lemma HeadIsQueued(s: Store, kind: Kind)
    requires QueueOk(s, kind) && s.Queue(kind) != map[]
    ensures In(s, Head(s.Queue(kind)), Queued) && Head(s.Queue(kind)).kind == kind
  {}

  lemma StartedOk(cfg: Config, s: Store, id: Identity, token: Token, now: int)
    requires RecordsOk(cfg, s) && In(s, id, Queued)
    ensures var r := Started(s.records[id], token, now);
      Wf(cfg, r) && r.id == id && Deadline(cfg, r) == now + Min(cfg.lease, cfg.Timeout(id.kind))
      && r.publishUntil == 0
  {}

  lemma StartedClaims(s: Store, r: JobRecord, t: Store, token: Token)
    requires ClaimsOk(s) && Puts(s, r, t) && r.owner == Some(token) && token !in s.claimed
    requires r.id in s.order && t.order == s.order
    requires t.claimed == s.claimed[token := ClaimNote(r.id, s.order[r.id])]
    ensures ClaimsOk(t)
  {
    forall id | In(t, id, Processing) && id != r.id ensures t.claimed[t.records[id].owner.value].id == id {
      assert In(s, id, Processing);
    }
  }

  lemma StartedTimes(s: Store, id: Identity, token: Token, now: int, t: Store)
    requires TimesOk(s) && id in s.records && s.records[id].id == id
    requires s.jobTouched[id] <= now <= s.clock
    requires Puts(s, Started(s.records[id], token, now), t)
    ensures TimesOk(t)
  {
    PutTimes(s, Started(s.records[id], token, now), t, now);
  }

  lemma QueueScore(s: Store, id: Identity, kind: Kind)
    requires QueueOk(s, kind) && id in s.Queue(kind)
    ensures id in s.order && s.Queue(kind)[id] == s.order[id] && In(s, id, Queued)
  {}

  lemma TouchedKnown(s: Store, id: Identity)
    requires TimesOk(s) && id in s.records
    ensures id in s.jobTouched
  {}

  ghost function StartedStore(cfg: Config, s: Store, r: JobRecord, index: nat, now: int): Store
    requires r.id in s.Queue(r.id.kind)
  {
    Apply(cfg, StartDelta(cfg, r, index, s.Queue(r.id.kind)[r.id], now), s)
  }

  lemma StartReindexes(cfg: Config, s: Store, id: Identity, token: Token, index: nat, now: int)
    requires Inv(cfg, s) && In(s, id, Queued) && s.records[id].id == id && id in s.Queue(id.kind)
    ensures Reindexed(cfg, s, Started(s.records[id], token, now),
                      StartedStore(cfg, s, Started(s.records[id], token, now), index, now), 0)
  {
    hide RecordsOk, QueueOk, OrderOk, SlotsOk, RunningOk, PendingOk, LatestOk, BuffersOk, BatchQueueOk, MetricsOk,
      ClaimsOk, TimesOk, Wf, Deadline;
    StartedOk(cfg, s, id, token, now);
    QueueScore(s, id, id.kind);
    NotPending(s, id);
  }

  lemma StartRest(cfg: Config, s: Store, id: Identity, token: Token, index: nat, now: int)
    requires In(s, id, Queued) && s.records[id].id == id && id in s.Queue(id.kind)
    ensures var r := Started(s.records[id], token, now);
      var t := StartedStore(cfg, s, r, index, now);
      && SameRegistration(s, r, t)
      && t.slots == s.slots[Slot(id.kind, index) := id]
      && t.metrics == s.metrics
      && t.claimed == s.claimed[token := ClaimNote(id, s.Queue(id.kind)[id])]
  {
    assert s.slots - {} == s.slots;
  }

  lemma StartKeepsInv(cfg: Config, s: Store, id: Identity, token: Token, index: nat, now: int)
    requires cfg.Valid() && Inv(cfg, s) && In(s, id, Queued) && s.records[id].id == id && id in s.Queue(id.kind)
    requires id in s.jobTouched ==> s.jobTouched[id] <= now
    requires now <= s.clock && token !in s.claimed
    requires index < cfg.Limit(id.kind) && Slot(id.kind, index) !in s.slots
    ensures Inv(cfg, StartedStore(cfg, s, Started(s.records[id], token, now), index, now))
  {
    hide RecordsOk, QueueOk, OrderOk, SlotsOk, RunningOk, PendingOk, LatestOk, BuffersOk, BatchQueueOk, MetricsOk,
      ClaimsOk, TimesOk, StartedStore, Requeued, Deadline, Wf;
    var r := Started(s.records[id], token, now);
    var t := StartedStore(cfg, s, r, index, now);
    StartReindexes(cfg, s, id, token, index, now);
    StartRest(cfg, s, id, token, index, now);
    QueueScore(s, id, id.kind);
    TouchedKnown(s, id);
    ReindexedOk(cfg, s, r, t, 0);
    SameRegistrationOk(cfg, s, r, t);
    PutSlotsOccupied(cfg, s, r, t, index);
    PutMetricsSame(s, r, t);
    StartedClaims(s, r, t, token);
    StartedTimes(s, id, token, now, t);
  }

  lemma ClaimKeepsInv(cfg: Config, s: Store, kind: Kind, token: Token, now: int)
    requires cfg.Valid() && Inv(cfg, s) && Timely(s, Claim(kind, token), now) && token !in s.claimed
    ensures Inv(cfg, Effect(cfg, PlanClaim(cfg, kind, token, now, s), s))
  {
    hide RecordsOk, QueueOk, OrderOk, SlotsOk, RunningOk, PendingOk, LatestOk, BuffersOk, BatchQueueOk, MetricsOk,
      ClaimsOk, TimesOk, FirstFree, StaleSlots, Apply, StartDelta;
    NoStaleSlots(cfg, s, kind);
    if PlanClaim(cfg, kind, token, now, s).Exec? {
      HeadIsQueued(s, kind);
      FreeSlotExists(cfg, s, kind);
      IsRecord(cfg, s, Head(s.Queue(kind)));
      StartKeepsInv(cfg, s, Head(s.Queue(kind)), token, FirstFree(s, kind, 0), now);
    }
  }

  lemma IsRecord(cfg: Config, s: Store, id: Identity)
    requires RecordsOk(cfg, s) && id in s.records
    ensures s.records[id].id == id
  {}

  // ---------- stage_photos

  lemma GrownBufferOk(b: Buffer, batch: int, photos: Batch)
    requires BufferOk(b) || b.batches == map[]
    requires batch !in b.batches && !Conflicts(b, photos)
    requires |PhotoIds(b.batches[batch := photos])| <= MAX_STAGED && |b.batches| < MAX_STAGED
    ensures BufferOk(b.(batches := b.batches[batch := photos]))
  {
    var grown := b.batches[batch := photos];
    forall m, n, p | m in grown && n in grown && p in grown[m] && p in grown[n] ensures grown[m][p] == grown[n][p] {
      if m != batch && n == batch { assert b.batches[m][p] == photos[p]; }
      else if m == batch && n != batch { assert b.batches[n][p] == photos[p]; }
    }
  }

  lemma StageWrites(cfg: Config, s: Store, id: Identity, g: Staged)
    requires cfg.Valid()
    ensures var t := Apply(cfg, NoCommands(id).(staged := Some(g)), s);
      && SameJobs(s, t) && t.ignored == s.ignored && t.clock == s.clock
      && t.buffers == s.buffers[id := LiveBuffer(g.buffer, s.clock + cfg.photosTtl)]
      && t.bufferTouched == s.bufferTouched[id := s.clock]
      && (forall e | e in t.batchQueue ::
            && t.batchQueue[e] > g.at - cfg.photosTtl
            && ((e == Entry(id, g.batch) && t.batchQueue[e] == g.at)
                || (e in s.batchQueue && t.batchQueue[e] == s.batchQueue[e])))
  {
    assert s.slots - {} == s.slots;
  }

  lemma StageKeepsInv(cfg: Config, s: Store, id: Identity, topic: string, batch: int, photos: Batch, now: int)
    requires cfg.Valid() && Inv(cfg, s)
    requires Timely(s, Stage(id, topic, batch, photos), now) && id.kind.Process?
    ensures Inv(cfg, Effect(cfg, PlanStage(cfg, id, topic, batch, photos, now, s), s))
  {
    hide RecordsOk, QueueOk, OrderOk, SlotsOk, RunningOk, PendingOk, LatestOk, MetricsOk, ClaimsOk, TimesOk,
      BatchQueueOk, BuffersOk, BufferOk, Conflicts, Apply, PlanStage, Live;
    if PlanStage(cfg, id, topic, batch, photos, now, s).Exec? {
      var b := BufferOf(s, id, topic);
      StagePlan(cfg, id, topic, batch, photos, now, s);
      LiveBufferOk(s, id, topic);
      GrownBufferOk(b, batch, photos);
      StagedKeepsInv(cfg, s, id, Staged(b.(batches := b.batches[batch := photos]), batch, now));
    }
  }

  lemma StagePlan(cfg: Config, id: Identity, topic: string, batch: int, photos: Batch, now: int, s: Store)
    requires PlanStage(cfg, id, topic, batch, photos, now, s).Exec?
    ensures var b := BufferOf(s, id, topic);
      && !Closing(s, id) && batch !in b.batches && !Conflicts(b, photos)
      && |PhotoIds(b.batches[batch := photos])| <= MAX_STAGED && |b.batches| < MAX_STAGED
      && PlanStage(cfg, id, topic, batch, photos, now, s).delta
         == NoCommands(id).(staged := Some(Staged(b.(batches := b.batches[batch := photos]), batch, now)))
  {
    hide Conflicts, PhotoIds;
  }

  lemma StagedKeepsInv(cfg: Config, s: Store, id: Identity, g: Staged)
    requires cfg.Valid() && Inv(cfg, s) && id.kind.Process? && !Closing(s, id) && g.at <= s.clock
    requires BufferOk(g.buffer)
    requires id in s.bufferTouched ==> s.bufferTouched[id] <= g.at
    requires id in s.buffers ==> g.buffer.batches.Keys == s.buffers[id].content.batches.Keys + {g.batch}
    requires id !in s.buffers ==> g.buffer.batches.Keys == {g.batch}
    ensures Inv(cfg, Apply(cfg, NoCommands(id).(staged := Some(g)), s))
  {
    hide RecordsOk, QueueOk, OrderOk, SlotsOk, RunningOk, PendingOk, LatestOk, MetricsOk, ClaimsOk, TimesOk,
      BatchQueueOk, BuffersOk, BufferOk, Apply;
    var t := Apply(cfg, NoCommands(id).(staged := Some(g)), s);
    StageWrites(cfg, s, id, g);
    StagedBuffers(s, id, g.buffer, t);
    StagedEntries(cfg, s, id, g, t);
    Untouched(cfg, s, t);
  }

  lemma LiveBufferOk(s: Store, id: Identity, topic: string)
    requires BuffersOk(s)
    ensures BufferOk(BufferOf(s, id, topic)) || BufferOf(s, id, topic).batches == map[]
  {}

  lemma StagedBuffers(s: Store, id: Identity, b: Buffer, t: Store)
    requires BuffersOk(s) && BufferOk(b) && id.kind.Process? && !Closing(s, id)
    requires t.records == s.records && t.ignored == s.ignored
    requires t.buffers.Keys == s.buffers.Keys + {id} && t.buffers[id].content == b
    requires forall other | other in s.buffers && other != id :: t.buffers[other] == s.buffers[other]
    requires t.bufferTouched == s.bufferTouched[id := s.clock]
    ensures BuffersOk(t)
  {
    forall other | other in t.buffers ensures BufferOk(t.buffers[other].content) && !Closing(t, other) {}
  }

  /** Staging into a dead buffer trims whatever an earlier buffer of this execution left queued. */
  lemma StagedEntries(cfg: Config, s: Store, id: Identity, g: Staged, t: Store)
    requires cfg.Valid() && BatchQueueOk(cfg, s) && !Closing(s, id) && g.at <= s.clock
    requires id in s.bufferTouched ==> s.bufferTouched[id] <= g.at
    requires id in s.buffers ==> g.buffer.batches.Keys == s.buffers[id].content.batches.Keys + {g.batch}
    requires id !in s.buffers ==> g.buffer.batches.Keys == {g.batch}
    requires t.records == s.records && t.ignored == s.ignored && t.clock == s.clock
    requires t.buffers == s.buffers[id := LiveBuffer(g.buffer, s.clock + cfg.photosTtl)]
    requires t.bufferTouched == s.bufferTouched[id := s.clock]
    requires forall e | e in t.batchQueue ::
               && t.batchQueue[e] > g.at - cfg.photosTtl
               && ((e == Entry(id, g.batch) && t.batchQueue[e] == g.at)
                   || (e in s.batchQueue && t.batchQueue[e] == s.batchQueue[e]))
    ensures BatchQueueOk(cfg, t)
  {
    hide BatchQueueOk;
    forall e | e in t.batchQueue ensures EntryOk(cfg, t, e) {
      if e in s.batchQueue { OldEntry(cfg, s, e); }
    }
    ClocksOk(cfg, s);
    EntriesOk(cfg, t);
  }

  lemma OldEntry(cfg: Config, s: Store, e: Entry)
    requires BatchQueueOk(cfg, s) && e in s.batchQueue
    ensures EntryOk(cfg, s, e) && (e.id in s.buffers ==> s.buffers[e.id].expires <= s.clock + cfg.photosTtl)
  {}

  lemma ClocksOk(cfg: Config, s: Store)
    requires BatchQueueOk(cfg, s)
    ensures forall id | id in s.bufferTouched :: s.bufferTouched[id] <= s.clock
    ensures forall id | id in s.buffers :: s.buffers[id].expires <= s.clock + cfg.photosTtl
  {}

  lemma EntriesOk(cfg: Config, s: Store)
    requires forall id | id in s.bufferTouched :: s.bufferTouched[id] <= s.clock
    requires forall id | id in s.buffers :: s.buffers[id].expires <= s.clock + cfg.photosTtl
    requires forall e | e in s.batchQueue :: EntryOk(cfg, s, e)
    ensures BatchQueueOk(cfg, s)
  {}

  /** What a change to the staging area or the clock alone leaves standing. */
  ghost predicate SameJobs(s: Store, t: Store) {
    && t == s.(buffers := t.buffers, batchQueue := t.batchQueue, bufferTouched := t.bufferTouched,
               ignored := t.ignored, clock := t.clock)
    && t.clock >= s.clock
  }

  lemma Untouched(cfg: Config, s: Store, t: Store)
    requires RecordsOk(cfg, s) && QueueOk(s, Process) && QueueOk(s, Story) && OrderOk(s) && SlotsOk(cfg, s)
    requires RunningOk(cfg, s) && PendingOk(s) && LatestOk(s) && MetricsOk(s) && ClaimsOk(s) && TimesOk(s)
    requires SameJobs(s, t)
    ensures RecordsOk(cfg, t) && QueueOk(t, Process) && QueueOk(t, Story) && OrderOk(t) && SlotsOk(cfg, t)
    ensures RunningOk(cfg, t) && PendingOk(t) && LatestOk(t) && MetricsOk(t) && ClaimsOk(t) && TimesOk(t)
  {
    hide RecordsOk, QueueOk, OrderOk, SlotsOk, RunningOk, PendingOk, LatestOk, MetricsOk, ClaimsOk, TimesOk;
    UntouchedIndexes(cfg, s, t);
    UntouchedQueue(s, t, Process);
    UntouchedQueue(s, t, Story);
    UntouchedRecords(cfg, s, t);
  }

  lemma UntouchedQueue(s: Store, t: Store, kind: Kind)
    requires QueueOk(s, kind) && SameJobs(s, t)
    ensures QueueOk(t, kind)
  {
    assert forall id :: In(t, id, Queued) <==> In(s, id, Queued);
  }

  lemma UntouchedIndexes(cfg: Config, s: Store, t: Store)
    requires SlotsOk(cfg, s) && RunningOk(cfg, s) && PendingOk(s) && ClaimsOk(s) && SameJobs(s, t)
    ensures SlotsOk(cfg, t) && RunningOk(cfg, t) && PendingOk(t) && ClaimsOk(t)
  {
    assert forall id :: In(t, id, Processing) <==> In(s, id, Processing);
    assert forall id :: Unpublished(t, id) <==> Unpublished(s, id);
  }

  lemma UntouchedRecords(cfg: Config, s: Store, t: Store)
    requires RecordsOk(cfg, s) && OrderOk(s) && LatestOk(s) && MetricsOk(s) && TimesOk(s) && SameJobs(s, t)
    ensures RecordsOk(cfg, t) && OrderOk(t) && LatestOk(t) && MetricsOk(t) && TimesOk(t)
  {
    assert forall id :: Live(t, id) <==> Live(s, id);
  }

  // ---------- acknowledge_result and the environment

  lemma AcknowledgeKeepsInv(cfg: Config, s: Store, id: Identity, publisher: string)
    requires cfg.Valid() && Inv(cfg, s)
    ensures Inv(cfg, Effect(cfg, PlanAcknowledge(id, publisher, s), s))
  {
    hide RecordsOk, QueueOk, OrderOk, SlotsOk, RunningOk, PendingOk, LatestOk, BuffersOk, BatchQueueOk, MetricsOk,
      ClaimsOk, TimesOk, Apply;
    if PlanAcknowledge(id, publisher, s).Exec? {
      var r := s.records[id].(published := true);
      var t := Apply(cfg, PlanAcknowledge(id, publisher, s).delta, s);
      Publishable(cfg, s, id);
      AcknowledgeReindexes(cfg, s, id, publisher);
      AcknowledgeRest(cfg, s, id, publisher);
      ReindexedOk(cfg, s, r, t, r.publishUntil);
      SameRegistrationOk(cfg, s, r, t);
      PutSlotsSame(cfg, s, r, t);
      PutMetricsSame(s, r, t);
      PutClaims(s, r, t);
      RewrittenTimes(s, r, t);
    }
  }

  /** Only a terminal record has a publisher. */
  lemma Publishable(cfg: Config, s: Store, id: Identity)
    requires RecordsOk(cfg, s) && id in s.records && s.records[id].publishOwner.Some?
    ensures s.records[id].status.Terminal() && s.records[id].id == id
    ensures Wf(cfg, s.records[id].(published := true))
  {}

  lemma AcknowledgeReindexes(cfg: Config, s: Store, id: Identity, publisher: string)
    requires Inv(cfg, s) && PlanAcknowledge(id, publisher, s).Exec?
    ensures Reindexed(cfg, s, s.records[id].(published := true),
                      Apply(cfg, PlanAcknowledge(id, publisher, s).delta, s), s.records[id].publishUntil)
  {
    hide RecordsOk, QueueOk, OrderOk, SlotsOk, RunningOk, PendingOk, LatestOk, BuffersOk, BatchQueueOk, MetricsOk,
      ClaimsOk, TimesOk, Wf;
    Publishable(cfg, s, id);
    OrderCovers(s, id);
    NotQueued(s, id);
    NotRunning(cfg, s, id);
  }

  lemma AcknowledgeRest(cfg: Config, s: Store, id: Identity, publisher: string)
    requires PlanAcknowledge(id, publisher, s).Exec? && s.records[id].id == id && s.records[id].status.Terminal()
    ensures var t := Apply(cfg, PlanAcknowledge(id, publisher, s).delta, s);
      && SameRegistration(s, s.records[id].(published := true), t)
      && t.slots == s.slots && t.metrics == s.metrics && t.claimed == s.claimed
  {
    assert s.slots - {} == s.slots;
  }

  lemma RewrittenTimes(s: Store, r: JobRecord, t: Store)
    requires TimesOk(s) && r.id in s.records && r == s.records[r.id].(published := true) && Puts(s, r, t)
    ensures TimesOk(t)
  {}

  lemma TickKeepsInv(cfg: Config, s: Store, to: int)
    requires Inv(cfg, s) && to >= s.clock
    ensures Inv(cfg, s.(clock := to))
  {
    hide RecordsOk, QueueOk, OrderOk, SlotsOk, RunningOk, PendingOk, LatestOk, MetricsOk, ClaimsOk, TimesOk, BufferOk;
    var t := s.(clock := to);
    assert forall id :: Closing(t, id) <==> Closing(s, id);
    Untouched(cfg, s, t);
  }

  lemma ExpireKeepsInv(cfg: Config, s: Store, id: Identity)
    requires Inv(cfg, s) && id in s.buffers && s.buffers[id].expires <= s.clock
    ensures Inv(cfg, Act(cfg, s, Expire(id)))
  {
    hide RecordsOk, QueueOk, OrderOk, SlotsOk, RunningOk, PendingOk, LatestOk, MetricsOk, ClaimsOk, TimesOk, BufferOk;
    var t := Act(cfg, s, Expire(id));
    assert forall other :: Closing(t, other) <==> Closing(s, other);
    Untouched(cfg, s, t);
  }

  lemma PopKeepsInv(cfg: Config, s: Store, e: Entry)
    requires Inv(cfg, s)
    ensures Inv(cfg, Act(cfg, s, PopBatch(e)))
  {
    hide RecordsOk, QueueOk, OrderOk, SlotsOk, RunningOk, PendingOk, LatestOk, MetricsOk, ClaimsOk, TimesOk, BufferOk;
    var t := Act(cfg, s, PopBatch(e));
    assert forall other :: Closing(t, other) <==> Closing(s, other);
    Untouched(cfg, s, t);
  }

  /** Every action of every replica, and of Redis itself, keeps the indexes and the records in agreement. */
  lemma ActKeepsInv(cfg: Config, s: Store, a: Action)
    requires cfg.Valid() && Inv(cfg, s) && Enabled(cfg, s, a)
    ensures Inv(cfg, Act(cfg, s, a))
  {
    hide Inv, PlanChange, PlanClaim, PlanStage, PlanAcknowledge, Apply;
    match a
    case Do(Register(q), now) =>
      if PlanRegister(cfg, q, now, s).Exec? {
        if Accepts(cfg, s, q, now) { AcceptKeepsInv(cfg, s, q, now); } else { IgnoreKeepsInv(cfg, s, q, now); }
      }
    case Do(Claim(kind, token), now) => ClaimKeepsInv(cfg, s, kind, token, now);
    case Do(Change(id, u), now) => ChangeKeepsInv(cfg, s, id, u, now);
    case Do(Stage(id, topic, batch, photos), now) => StageKeepsInv(cfg, s, id, topic, batch, photos, now);
    case Do(Acknowledge(id, publisher), _) => AcknowledgeKeepsInv(cfg, s, id, publisher);
    case Tick(to) => TickKeepsInv(cfg, s, to);
    case Expire(id) => ExpireKeepsInv(cfg, s, id);
    case PopBatch(e) => PopKeepsInv(cfg, s, e);
  }
}
