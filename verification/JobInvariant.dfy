/**
 The invariant that links every index of the job store to the records, and the proof
 that every action keeps it: transactions by any replica, the clock, key expiry and the
 batch runner's ZPOPMIN.
 */
module JobInvariant {
  import opened Wrappers
  import opened JobModel

  // ---------- Actions

  datatype Action =
    | Do(op: Op, now: int)
    | Tick(to: int)
    | Expire(id: Identity)
    | PopBatch(entry: Entry)

  /** The keys an operation has read before it asks for the time have not changed since. */
  ghost predicate Timely(s: Store, op: Op, now: int) {
    && 0 <= now <= s.clock
    && match op
       case Register(q) => q.id in s.jobTouched ==> s.jobTouched[q.id] <= now
       case Claim(kind, _) =>
         s.Queue(kind) != map[] && Head(s.Queue(kind)) in s.jobTouched
         ==> s.jobTouched[Head(s.Queue(kind))] <= now
       case Change(id, _) => id in s.jobTouched ==> s.jobTouched[id] <= now
       case Stage(id, _, _, _) => id in s.bufferTouched ==> s.bufferTouched[id] <= now
       case Acknowledge(_, _) => true
  }

  /** What the callers guarantee: fresh tokens, and a returned claim passes on what it got. */
  predicate CallerOk(s: Store, op: Op) {
    match op
    case Claim(_, token) => token !in s.claimed
    case Change(id, u) =>
      u.ReturnUnstarted? ==> u.owner in s.claimed && s.claimed[u.owner] == ClaimNote(id, u.score)
    case Stage(id, _, _, _) => id.kind.Process?
    case Register(_) => true
    case Acknowledge(_, _) => true
  }

  ghost predicate Enabled(cfg: Config, s: Store, a: Action) {
    match a
    case Do(op, now) => Timely(s, op, now) && CallerOk(s, op)
    case Tick(to) => to >= s.clock
    case Expire(id) => id in s.buffers && s.buffers[id].expires <= s.clock
    case PopBatch(e) =>
      e in s.batchQueue && forall other | other in s.batchQueue :: s.batchQueue[e] <= s.batchQueue[other]
  }

  ghost function Act(cfg: Config, s: Store, a: Action): Store {
    match a
    case Do(op, now) => Effect(cfg, Plan(cfg, op, now, s), s)
    case Tick(to) => s.(clock := to)
    case Expire(id) => s.(buffers := s.buffers - {id}, bufferTouched := s.bufferTouched[id := s.clock])
    case PopBatch(e) => s.(batchQueue := s.batchQueue - {e})
  }

  // ---------- The invariant

  predicate Wf(cfg: Config, r: JobRecord) {
    && (r.status.Queued? ==>
          r.owner.None? && r.startedAt.None? && r.heartbeatAt.None? && !r.cancelRequested)
    && (r.status.Processing? ==> r.owner.Some? && r.startedAt.Some? && r.heartbeatAt.Some?)
    && (r.status.Terminal() <==> r.event.Some?)
    && (r.event.Some? ==>
          r.event.value.id == r.id && r.event.value.status == r.status && PayloadOk(cfg, r.event.value))
    && (r.publishOwner.Some? ==> r.status.Terminal())
    && (r.publishOwner.None? ==> r.publishUntil == 0)
    && (r.published ==> r.publishOwner.Some?)
  }

  predicate In(s: Store, id: Identity, status: Status) {
    id in s.records && s.records[id].status == status
  }

  ghost predicate RecordsOk(cfg: Config, s: Store) {
    forall id | id in s.records :: s.records[id].id == id && Wf(cfg, s.records[id])
  }

  /** QUEUED exactly when in the queue of its kind, scored by its registration number. */
  ghost predicate QueueOk(s: Store, kind: Kind) {
    && (forall id :: id in s.Queue(kind) <==> In(s, id, Queued) && id.kind == kind)
    && (forall id | id in s.Queue(kind) :: id in s.order && s.Queue(kind)[id] == s.order[id])
  }

  ghost predicate OrderOk(s: Store) {
    && s.order.Keys == s.records.Keys
    && (forall id | id in s.order :: 0 < s.order[id] <= s.sequence)
    && (forall a, b | a in s.order && b in s.order && s.order[a] == s.order[b] :: a == b)
  }

  /** PROCESSING exactly when holding one slot of its kind, below the limit of that kind. */
  ghost predicate SlotsOk(cfg: Config, s: Store) {
    && (forall x | x in s.slots ::
          x.index < cfg.Limit(x.kind) && s.slots[x].kind == x.kind && In(s, s.slots[x], Processing))
    && (forall x, y | x in s.slots && y in s.slots && s.slots[x] == s.slots[y] :: x == y)
    && (forall id | In(s, id, Processing) :: id in s.slots.Values)
  }

  /** PROCESSING exactly when in `running`, scored by its deadline. */
  ghost predicate RunningOk(cfg: Config, s: Store) {
    && (forall id :: id in s.running <==> In(s, id, Processing))
    && (forall id | id in s.running ::
          && s.records[id].heartbeatAt.Some? && s.records[id].startedAt.Some?
          && s.running[id] == Deadline(cfg, s.records[id]))
  }

  predicate Unpublished(s: Store, id: Identity) {
    id in s.records && s.records[id].status.Terminal() && !s.records[id].published
  }

  /** In the outbox exactly when terminal and not published. */
  ghost predicate PendingOk(s: Store) {
    && (forall id :: id in s.pending <==> Unpublished(s, id))
    && (forall id | id in s.pending :: s.records[id].publishUntil <= s.pending[id])
  }

  ghost predicate LatestOk(s: Store) {
    && (forall k | k in s.latest :: s.latest[k] in s.records && TripOf(s.latest[k]) == k)
    && (forall id | Live(s, id) :: TripOf(id) in s.latest && s.latest[TripOf(id)] == id)
  }

  predicate BufferOk(b: Buffer) {
    && |b.batches| <= MAX_STAGED
    && |PhotoIds(b.batches)| <= MAX_STAGED
    && (forall m, n, p | m in b.batches && n in b.batches && p in b.batches[m] && p in b.batches[n] ::
          b.batches[m][p] == b.batches[n][p])
  }

  predicate Closing(s: Store, id: Identity) { id in s.records || id in s.ignored }

  ghost predicate BuffersOk(s: Store) {
    && s.ignored !! s.records.Keys
    && (forall id | id in s.buffers ::
          && id.kind.Process? && !Closing(s, id) && BufferOk(s.buffers[id].content)
          && id in s.bufferTouched)
  }

  /** A queued batch of a live buffer is really in it; leftovers of a dead one are old enough to trim. */
  ghost predicate BatchQueueOk(cfg: Config, s: Store) {
    && (forall id | id in s.bufferTouched :: s.bufferTouched[id] <= s.clock)
    && (forall id | id in s.buffers :: s.buffers[id].expires <= s.clock + cfg.photosTtl)
    && (forall e | e in s.batchQueue :: EntryOk(cfg, s, e))
  }

  predicate EntryOk(cfg: Config, s: Store, e: Entry)
    requires e in s.batchQueue
  {
    if e.id in s.buffers then
      && e.batch in s.buffers[e.id].content.batches
      && s.batchQueue[e] + cfg.photosTtl <= s.buffers[e.id].expires
    else
      Closing(s, e.id)
      || (e.id in s.bufferTouched && s.batchQueue[e] + cfg.photosTtl <= s.bufferTouched[e.id])
  }

  function Ended(records: map<Identity, JobRecord>, kind: Kind, outcome: Status): set<Identity> {
    set id | id in records && HasEnded(records, kind, outcome, id)
  }

  predicate HistogramOk(h: Histogram) {
    && |h.buckets| == |BOUNDS| + 1
    && h.buckets[|BOUNDS|] == h.count
    && (forall i, j | 0 <= i <= j < |h.buckets| :: h.buckets[i] <= h.buckets[j])
  }

  ghost predicate MetricsOk(s: Store) {
    && (forall key | key in s.metrics :: HistogramOk(s.metrics[key]))
    && (forall kind: Kind, outcome: Status | outcome.Terminal() ::
          HistogramOf(s.metrics, Series(kind, outcome, TotalTime)).count == |Ended(s.records, kind, outcome)|)
  }

  /** Every claim ever made is remembered, and a running record's owner claimed that record. */
  ghost predicate ClaimsOk(s: Store) {
    && (forall t | t in s.claimed ::
          s.claimed[t].id in s.order && s.claimed[t].score == s.order[s.claimed[t].id])
    && (forall id | In(s, id, Processing) ::
          && s.records[id].owner.Some? && s.records[id].owner.value in s.claimed
          && s.claimed[s.records[id].owner.value].id == id)
  }

  /** Timestamps of a record are ordered and never ahead of its last write. */
  ghost predicate TimesOk(s: Store) {
    && 0 <= s.clock
    && (forall id | id in s.jobTouched :: s.jobTouched[id] <= s.clock)
    && (forall id | id in s.records ::
          var r := s.records[id];
          && id in s.jobTouched
          && r.createdAt <= s.jobTouched[id]
          && (r.startedAt.Some? ==> r.createdAt <= r.startedAt.value <= s.jobTouched[id])
          && (r.heartbeatAt.Some? && r.startedAt.Some? ==>
                r.startedAt.value <= r.heartbeatAt.value <= s.jobTouched[id]))
  }

  ghost predicate Inv(cfg: Config, s: Store) {
    && RecordsOk(cfg, s)
    && QueueOk(s, Process) && QueueOk(s, Story)
    && OrderOk(s)
    && SlotsOk(cfg, s)
    && RunningOk(cfg, s)
    && PendingOk(s)
    && LatestOk(s)
    && BuffersOk(s)
    && BatchQueueOk(cfg, s)
    && MetricsOk(s)
    && ClaimsOk(s)
    && TimesOk(s)
  }

  // ---------- Writing one record and re-indexing it

  /** `t` is `s` with record `r` written at its identity. */
  ghost predicate Puts(s: Store, r: JobRecord, t: Store) {
    && t.records == s.records[r.id := r]
    && t.clock == s.clock
    && t.jobTouched == s.jobTouched[r.id := s.clock]
  }

  lemma PutRecords(cfg: Config, s: Store, r: JobRecord, t: Store)
    requires RecordsOk(cfg, s) && Puts(s, r, t) && Wf(cfg, r)
    ensures RecordsOk(cfg, t)
  {}

  lemma PutQueue(s: Store, r: JobRecord, t: Store, kind: Kind)
    requires QueueOk(s, kind) && Puts(s, r, t) && r.id in t.order
    requires forall id | id in s.order :: id in t.order && t.order[id] == s.order[id]
    requires t.Queue(kind) ==
             if r.id.kind != kind then s.Queue(kind)
             else if r.status.Queued? then s.Queue(kind)[r.id := t.order[r.id]]
             else s.Queue(kind) - {r.id}
    ensures QueueOk(t, kind)
  {
    forall id ensures id in t.Queue(kind) <==> In(t, id, Queued) && id.kind == kind {
      assert id != r.id ==> (In(t, id, Queued) <==> In(s, id, Queued));
    }
  }

  lemma PutRunning(cfg: Config, s: Store, r: JobRecord, t: Store)
    requires RunningOk(cfg, s) && Puts(s, r, t) && Wf(cfg, r)
    requires t.running == if r.status.Processing? then s.running[r.id := Deadline(cfg, r)] else s.running - {r.id}
    ensures RunningOk(cfg, t)
  {
    forall id ensures id in t.running <==> In(t, id, Processing) {
      assert id != r.id ==> (In(t, id, Processing) <==> In(s, id, Processing));
    }
  }

  lemma PutPending(s: Store, r: JobRecord, t: Store, score: int)
    requires PendingOk(s) && Puts(s, r, t)
    requires t.pending ==
             if r.status.Terminal() && !r.published then s.pending[r.id := score] else s.pending - {r.id}
    requires r.publishUntil <= score
    ensures PendingOk(t)
  {
    forall id ensures id in t.pending <==> Unpublished(t, id) {
      assert id != r.id ==> (Unpublished(t, id) <==> Unpublished(s, id));
    }
  }

  function Requeued(s: Store, r: JobRecord, order: map<Identity, nat>, kind: Kind): map<Identity, nat>
    requires r.id in order
  {
    if r.id.kind != kind then s.Queue(kind)
    else if r.status.Queued? then s.Queue(kind)[r.id := order[r.id]]
    else s.Queue(kind) - {r.id}
  }

  /** `t` has `r` written and its queue, deadline and outbox entries brought in line with it. */
  ghost predicate Reindexed(cfg: Config, s: Store, r: JobRecord, t: Store, score: int) {
    && Puts(s, r, t) && Wf(cfg, r) && r.publishUntil <= score
    && r.id in t.order
    && (forall id | id in s.order :: id in t.order && t.order[id] == s.order[id])
    && t.processQueue == Requeued(s, r, t.order, Process)
    && t.storyQueue == Requeued(s, r, t.order, Story)
    && t.running == (if r.status.Processing? then s.running[r.id := Deadline(cfg, r)] else s.running - {r.id})
    && t.pending ==
       (if r.status.Terminal() && !r.published then s.pending[r.id := score] else s.pending - {r.id})
  }

  lemma ReindexedOk(cfg: Config, s: Store, r: JobRecord, t: Store, score: int)
    requires RecordsOk(cfg, s) && QueueOk(s, Process) && QueueOk(s, Story) && RunningOk(cfg, s) && PendingOk(s)
    requires Reindexed(cfg, s, r, t, score)
    ensures RecordsOk(cfg, t) && QueueOk(t, Process) && QueueOk(t, Story) && RunningOk(cfg, t) && PendingOk(t)
  {
    hide RecordsOk, QueueOk, RunningOk, PendingOk, Wf, Deadline;
    PutRecords(cfg, s, r, t);
    PutQueue(s, r, t, Process);
    PutQueue(s, r, t, Story);
    PutRunning(cfg, s, r, t);
    PutPending(s, r, t, score);
  }

  /** The staging area and the trip index are not written. */
  ghost predicate SameStaging(s: Store, t: Store) {
    && t.ignored == s.ignored && t.buffers == s.buffers && t.batchQueue == s.batchQueue
    && t.bufferTouched == s.bufferTouched
  }

  /** An already registered record is written: nothing else about it is renumbered. */
  ghost predicate SameRegistration(s: Store, r: JobRecord, t: Store) {
    && SameStaging(s, t) && r.id in s.records && (!r.status.Terminal() ==> Live(s, r.id))
    && t.latest == s.latest && t.order == s.order && t.sequence == s.sequence
  }

  lemma SameRegistrationOk(cfg: Config, s: Store, r: JobRecord, t: Store)
    requires OrderOk(s) && LatestOk(s) && BuffersOk(s) && BatchQueueOk(cfg, s)
    requires Puts(s, r, t) && SameRegistration(s, r, t)
    ensures OrderOk(t) && LatestOk(t) && BuffersOk(t) && BatchQueueOk(cfg, t)
  {
    hide OrderOk, LatestOk, BuffersOk, BatchQueueOk;
    PutOrderSame(s, r, t);
    PutLatest(s, r, t);
    PutBuffers(s, r, t);
    PutBatchQueue(cfg, s, r, t);
  }

  /** Writing a record that was not and is not PROCESSING, or stays so, leaves the slots alone. */
  lemma PutSlotsSame(cfg: Config, s: Store, r: JobRecord, t: Store)
    requires SlotsOk(cfg, s) && Puts(s, r, t) && t.slots == s.slots
    requires In(s, r.id, Processing) <==> r.status.Processing?
    ensures SlotsOk(cfg, t)
  {
    forall id ensures In(t, id, Processing) <==> In(s, id, Processing) {}
  }

  lemma PutSlotsReleased(cfg: Config, s: Store, r: JobRecord, t: Store)
    requires cfg.Valid() && SlotsOk(cfg, s) && Puts(s, r, t)
    requires !r.status.Processing?
    requires t.slots == s.slots - SlotsHeldBy(s.slots, r.id.kind, r.id)
    ensures SlotsOk(cfg, t)
  {
    forall x | x in s.slots && s.slots[x] == r.id ensures x in SlotsHeldBy(s.slots, r.id.kind, r.id) {
      assert x == Slot(r.id.kind, x.index);
    }
    forall id | In(t, id, Processing) ensures id in t.slots.Values {
      assert In(s, id, Processing);
      var x :| x in s.slots && s.slots[x] == id;
      assert x in t.slots;
    }
  }

  lemma PutSlotsOccupied(cfg: Config, s: Store, r: JobRecord, t: Store, index: nat)
    requires SlotsOk(cfg, s) && Puts(s, r, t)
    requires r.status.Processing? && !In(s, r.id, Processing)
    requires Slot(r.id.kind, index) !in s.slots && index < cfg.Limit(r.id.kind)
    requires t.slots == s.slots[Slot(r.id.kind, index) := r.id]
    ensures SlotsOk(cfg, t)
  {
    forall x | x in s.slots ensures s.slots[x] != r.id && In(t, s.slots[x], Processing) {
      assert In(s, s.slots[x], Processing);
    }
    OccupiedCovers(cfg, s, r, t, Slot(r.id.kind, index));
  }

  lemma OccupiedCovers(cfg: Config, s: Store, r: JobRecord, t: Store, slot: Slot)
    requires forall id | In(s, id, Processing) :: id in s.slots.Values
    requires Puts(s, r, t) && slot !in s.slots && t.slots == s.slots[slot := r.id]
    ensures forall id | In(t, id, Processing) :: id in t.slots.Values
  {
    forall id | In(t, id, Processing) ensures id in t.slots.Values {
      if id == r.id {
        assert t.slots[slot] == id;
      } else {
        assert In(s, id, Processing);
        var x :| x in s.slots && s.slots[x] == id;
        assert t.slots[x] == id;
      }
    }
  }

  lemma PutLatest(s: Store, r: JobRecord, t: Store)
    requires LatestOk(s) && Puts(s, r, t)
    requires t.latest == s.latest && r.id in s.records && (!r.status.Terminal() ==> Live(s, r.id))
    ensures LatestOk(t)
  {
    forall id | Live(t, id) ensures Live(s, id) {}
  }

  lemma BumpedOk(h: Histogram, micros: int)
    requires HistogramOk(h)
    ensures HistogramOk(Observe(h, micros))
  {
    var elapsed := Max(0, micros);
    var n := Observe(h, micros);
    forall i, j | 0 <= i <= j < |n.buckets| ensures n.buckets[i] <= n.buckets[j] {
      assert Fits(elapsed, i) ==> Fits(elapsed, j);
    }
  }

  lemma ObserveEndOk(s: Store, r: JobRecord, now: int)
    requires forall key | key in s.metrics :: HistogramOk(s.metrics[key])
    ensures var m := ObserveEnd(s.metrics, r, now);
      && (forall key | key in m :: HistogramOk(m[key]))
      && (forall kind: Kind, outcome: Status ::
            HistogramOf(m, Series(kind, outcome, TotalTime)).count
            == HistogramOf(s.metrics, Series(kind, outcome, TotalTime)).count
               + if r.id.kind == kind && r.status == outcome then 1 else 0)
  {
    assert HistogramOk(EMPTY_HISTOGRAM);
    forall phase: Phase, h: Histogram | HistogramOk(h) ensures HistogramOk(Observe(h, Elapsed(r, phase, now))) {
      BumpedOk(h, Elapsed(r, phase, now));
    }
  }

  lemma PutMetricsSame(s: Store, r: JobRecord, t: Store)
    requires MetricsOk(s) && Puts(s, r, t) && t.metrics == s.metrics
    requires r.status.Terminal() || (r.id in s.records && s.records[r.id].status.Terminal()) ==>
             r.id in s.records && s.records[r.id].status == r.status
    ensures MetricsOk(t)
  {
    forall kind: Kind, outcome: Status | outcome.Terminal()
      ensures Ended(t.records, kind, outcome) == Ended(s.records, kind, outcome)
    {}
  }

  predicate HasEnded(records: map<Identity, JobRecord>, kind: Kind, outcome: Status, id: Identity) {
    id in records && id.kind == kind && records[id].status == outcome
  }

  function EndedNow(r: JobRecord, kind: Kind, outcome: Status): set<Identity> {
    if r.id.kind == kind && r.status == outcome then {r.id} else {}
  }

  lemma EndedAfter(records: map<Identity, JobRecord>, r: JobRecord, kind: Kind, outcome: Status)
    requires outcome.Terminal() && (r.id in records ==> !records[r.id].status.Terminal())
    ensures Ended(records[r.id := r], kind, outcome) == Ended(records, kind, outcome) + EndedNow(r, kind, outcome)
    ensures Ended(records, kind, outcome) !! EndedNow(r, kind, outcome)
  {
    var next := records[r.id := r];
    forall id ensures HasEnded(next, kind, outcome, id)
                      <==> HasEnded(records, kind, outcome, id) || id in EndedNow(r, kind, outcome)
    {
      if id != r.id { assert id in next <==> id in records; }
    }
  }

  lemma EndedGrows(records: map<Identity, JobRecord>, r: JobRecord, kind: Kind, outcome: Status)
    requires outcome.Terminal() && (r.id in records ==> !records[r.id].status.Terminal())
    ensures |Ended(records[r.id := r], kind, outcome)|
            == |Ended(records, kind, outcome)| + if r.id.kind == kind && r.status == outcome then 1 else 0
  {
    EndedAfter(records, r, kind, outcome);
  }

  lemma PutMetricsEnded(s: Store, r: JobRecord, t: Store, now: int)
    requires MetricsOk(s) && Puts(s, r, t) && t.metrics == ObserveEnd(s.metrics, r, now)
    requires r.status.Terminal() && (r.id in s.records ==> !s.records[r.id].status.Terminal())
    ensures MetricsOk(t)
  {
    ObserveEndOk(s, r, now);
    forall kind: Kind, outcome: Status | outcome.Terminal()
      ensures HistogramOf(t.metrics, Series(kind, outcome, TotalTime)).count == |Ended(t.records, kind, outcome)|
    {
      EndedGrows(s.records, r, kind, outcome);
    }
  }

  lemma PutClaims(s: Store, r: JobRecord, t: Store)
    requires ClaimsOk(s) && Puts(s, r, t) && t.claimed == s.claimed
    requires forall id | id in s.order :: id in t.order && t.order[id] == s.order[id]
    requires r.status.Processing? ==> In(s, r.id, Processing) && s.records[r.id].owner == r.owner
    ensures ClaimsOk(t)
  {
    forall id | In(t, id, Processing) ensures In(s, id, Processing) && t.records[id].owner == s.records[id].owner {}
  }

  lemma PutTimes(s: Store, r: JobRecord, t: Store, now: int)
    requires TimesOk(s) && Puts(s, r, t) && now <= s.clock
    requires r.createdAt <= now
    requires r.startedAt.Some? ==> r.createdAt <= r.startedAt.value <= now
    requires r.heartbeatAt.Some? && r.startedAt.Some? ==> r.startedAt.value <= r.heartbeatAt.value <= now
    ensures TimesOk(t)
  {}

  /** Nothing about photo staging changes when an already registered record is written. */
  lemma PutBuffers(s: Store, r: JobRecord, t: Store)
    requires BuffersOk(s) && Puts(s, r, t) && r.id in s.records
    requires t.ignored == s.ignored && t.buffers == s.buffers && t.bufferTouched == s.bufferTouched
    ensures BuffersOk(t)
  {
    assert t.records.Keys == s.records.Keys;
    forall id | id in t.buffers ensures BufferOk(t.buffers[id].content) && !Closing(t, id) {}
  }

  lemma PutBatchQueue(cfg: Config, s: Store, r: JobRecord, t: Store)
    requires BatchQueueOk(cfg, s) && Puts(s, r, t)
    requires t.ignored == s.ignored && t.buffers == s.buffers && t.batchQueue == s.batchQueue
    requires t.bufferTouched == s.bufferTouched
    ensures BatchQueueOk(cfg, t)
  {
    assert forall id :: Closing(s, id) ==> Closing(t, id);
  }

  lemma PutOrderSame(s: Store, r: JobRecord, t: Store)
    requires OrderOk(s) && Puts(s, r, t) && t.order == s.order && t.sequence == s.sequence && r.id in s.records
    ensures OrderOk(t)
  {}
}
