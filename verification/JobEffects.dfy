/**
 What every transaction decides and writes, said of records and indexes alone: when it goes
 through, what the record becomes, which indexes it enters and leaves.  Each law holds of the
 atomic step, so of every interleaving, and of the method that runs it.
 */
module JobEffects {
  import opened Sets
  import opened Wrappers
  import opened JobModel
  import opened JobInvariant
  import opened JobPreservation
  import opened JobRuns
  import opened JobGuarantees

  predicate Earlier(d: int, a: int, b: int) {
    d <= a && d <= b && (d == a || d == b)
  }

  function TimeLimit(cfg: Config, kind: Kind): int {
    if kind.Process? then cfg.processTimeout else cfg.storyTimeout
  }

  /** The runner `owner` has the job, and neither its lease nor the time limit has run out. */
  predicate Holds(cfg: Config, s: Store, id: Identity, owner: Token, now: int) {
    && id in s.records && s.records[id].status == Processing && s.records[id].owner == Some(owner)
    && s.records[id].heartbeatAt.Some? && now < s.records[id].heartbeatAt.value + cfg.lease
    && s.records[id].startedAt.Some? && now < s.records[id].startedAt.value + TimeLimit(cfg, id.kind)
  }

  predicate HasEndedAs(s: Store, id: Identity) {
    In(s, id, Completed) || In(s, id, Failed) || In(s, id, Canceled)
  }

  // ---------- The laws

  /** A heartbeat succeeds exactly for the holder of the job, and moves its lease and nothing else. */
  ghost predicate HeartbeatLaw(cfg: Config, s: Store, t: Store, id: Identity, owner: Token, now: int, ok: bool) {
    && (ok <==> Holds(cfg, s, id, owner, now))
    && (!ok ==> t == s)
    && (ok ==>
          && id in t.running
          && Earlier(t.running[id], now + cfg.lease, s.records[id].startedAt.value + TimeLimit(cfg, id.kind))
          && t == s.(records := s.records[id := s.records[id].(heartbeatAt := Some(now))],
                     running := s.running[id := t.running[id]], jobTouched := t.jobTouched))
  }

  predicate InContract(kind: Kind, step: string) {
    match kind
    case Process =>
      step in ["DOWNLOADING", "EMBEDDING", "CLOCK", "LOCATING", "CLUSTERING", "FILTERING", "FINALIZING"]
    case Story => step in ["SELECTING", "CAPTIONING", "WRITING", "VERIFYING"]
  }

  ghost predicate ProgressLaw(cfg: Config, s: Store, t: Store, id: Identity, owner: Token, step: string, done: int,
                              total: int, now: int, reply: Reply)
  {
    if !Holds(cfg, s, id, owner, now) || s.records[id].cancelRequested then reply == Refused && t == s
    else if total != s.records[id].total || !(0 <= done <= total) || !InContract(id.kind, step) then
      reply == Raised && t == s
    else
      var r := s.records[id].(step := Some(step), done := done);
      reply == Changed(r) && t == s.(records := s.records[id := r], jobTouched := t.jobTouched)
  }

  /** The event sent for an outcome: itself, or a small failure when its envelope is over 512 KiB. */
  predicate SentFor(cfg: Config, e: Event, sent: Event) {
    sent == if cfg.eventBytes(e) <= 524288 then e else Event(e.id, Failed, None, Some("RESULT_TOO_LARGE"))
  }

  /** The record of a job that has ended with event `e`. */
  predicate EndedFrom(cfg: Config, before: JobRecord, after: JobRecord, e: Event, cancelled: bool) {
    && after.event.Some? && SentFor(cfg, e, after.event.value)
    && var sent := after.event.value;
       after == before.(status := sent.status, event := Some(sent), step := None, cancelRequested := cancelled,
                        done := if sent.status == Completed then before.total else before.done)
  }

  /** A live job ends with event `e`: it leaves queue, slots and `running`, is counted, and its result is posted. */
  ghost predicate Ends(cfg: Config, s: Store, t: Store, id: Identity, e: Event, cancelled: bool, now: int) {
    && id in s.records && id in t.records && t.records == s.records[id := t.records[id]]
    && EndedFrom(cfg, s.records[id], t.records[id], e, cancelled)
    && var outcome := t.records[id].status;
    && t.processQueue == s.processQueue - {id} && t.storyQueue == s.storyQueue - {id}
    && t.running == s.running - {id}
    && Frees(s.slots, t.slots, id)
    && t.pending == s.pending[id := now]
    && HistogramOf(t.metrics, Series(id.kind, outcome, TotalTime)).count
       == HistogramOf(s.metrics, Series(id.kind, outcome, TotalTime)).count + 1
    && t == s.(records := t.records, processQueue := t.processQueue, storyQueue := t.storyQueue, running := t.running,
               slots := t.slots, pending := t.pending, metrics := t.metrics, jobTouched := t.jobTouched)
  }

  ghost predicate Frees(before: map<Slot, Identity>, after: map<Slot, Identity>, id: Identity) {
    && (forall x :: x in after <==> x in before && before[x] != id)
    && (forall x | x in after :: after[x] == before[x])
  }

  ghost predicate FinishLaw(cfg: Config, s: Store, t: Store, id: Identity, owner: Token, status: Status,
                            result: Option<string>, error: Option<string>, now: int, reply: Reply)
  {
    if !Holds(cfg, s, id, owner, now) then reply == Refused && t == s
    else if s.records[id].cancelRequested then
      Ends(cfg, s, t, id, Event(id, Canceled, None, None), true, now) && reply == Changed(t.records[id])
    else if (match status
             case Completed => result.Some? && error.None? && cfg.resultOk(id.kind, result.value)
             case Failed => result.None? && error.Some?
             case Canceled => result.None? && error.None?
             case _ => false)
    then Ends(cfg, s, t, id, Event(id, status, result, error), false, now) && reply == Changed(t.records[id])
    else reply == Raised && t == s
  }

  ghost predicate ReturnLaw(cfg: Config, s: Store, t: Store, id: Identity, owner: Token, score: nat, now: int, reply: Reply) {
    if !Holds(cfg, s, id, owner, now) then reply == Refused && t == s
    else if s.records[id].cancelRequested then
      Ends(cfg, s, t, id, Event(id, Canceled, None, None), true, now) && reply == Changed(t.records[id])
    else
      var r := s.records[id].(status := Queued, owner := None, startedAt := None, heartbeatAt := None);
      && reply == Changed(r)
      && Frees(s.slots, t.slots, id)
      && t == s.(records := s.records[id := r], running := s.running - {id}, slots := t.slots, jobTouched := t.jobTouched,
                 processQueue := if id.kind.Process? then s.processQueue[id := score] else s.processQueue,
                 storyQueue := if id.kind.Story? then s.storyQueue[id := score] else s.storyQueue)
  }

  ghost predicate CancelLaw(cfg: Config, s: Store, t: Store, id: Identity, now: int, reply: Reply) {
    && id in s.records
    && match s.records[id].status
       case Queued =>
         Ends(cfg, s, t, id, Event(id, Canceled, None, None), true, now) && reply == Changed(t.records[id])
       case Processing =>
         var r := s.records[id].(cancelRequested := true);
         reply == Changed(r) && t == s.(records := s.records[id := r], jobTouched := t.jobTouched)
       case _ => reply == Raised && t == s
  }

  predicate IsOverdue(cfg: Config, s: Store, id: Identity, now: int) {
    && In(s, id, Processing) && s.records[id].startedAt.Some? && s.records[id].heartbeatAt.Some?
    && (s.records[id].startedAt.value + TimeLimit(cfg, id.kind) <= now
        || s.records[id].heartbeatAt.value + cfg.lease <= now)
  }

  /** What `recover` reports of an overdue job: over its time limit, or else not alive. */
  function Interrupted(cfg: Config, s: Store, id: Identity, now: int): Event
    requires IsOverdue(cfg, s, id, now)
  {
    Event(id, Failed, None,
          Some(if s.records[id].startedAt.value + TimeLimit(cfg, id.kind) <= now then "TIMEOUT" else "WORKER_DEAD"))
  }

  ghost predicate RecoverLaw(cfg: Config, s: Store, t: Store, id: Identity, now: int) {
    if IsOverdue(cfg, s, id, now) then
      Ends(cfg, s, t, id, Interrupted(cfg, s, id, now), s.records[id].cancelRequested, now)
    else t == s
  }

  ghost predicate ClaimResultLaw(cfg: Config, s: Store, t: Store, id: Identity, publisher: string, now: int,
                                 granted: Option<JobRecord>)
  {
    if HasEndedAs(s, id) && !s.records[id].published && s.records[id].publishUntil <= now then
      var r := s.records[id].(publishOwner := Some(publisher), publishUntil := now + cfg.publishLease);
      && granted == Some(r)
      && t == s.(records := s.records[id := r], pending := s.pending[id := now + cfg.publishLease],
                 jobTouched := t.jobTouched)
    else granted == None && t == s
  }

  /** The record a reply hands out. */
  function Granted(reply: Reply): Option<JobRecord> {
    if reply.Changed? then Some(reply.record) else None
  }

  ghost predicate AcknowledgeLaw(s: Store, t: Store, id: Identity, publisher: string) {
    if id in s.records && s.records[id].publishOwner == Some(publisher) then
      t == s.(records := s.records[id := s.records[id].(published := true)], pending := s.pending - {id},
              jobTouched := t.jobTouched)
    else t == s
  }

  function JobLimit(cfg: Config, kind: Kind): nat {
    if kind.Story? then cfg.storyConcurrency else 1
  }

  /** A queued job starts: out of its queue, into the first free slot, with a lease. */
  ghost predicate Starts(cfg: Config, s: Store, t: Store, id: Identity, token: Token, now: int) {
    && In(s, id, Queued) && id in t.running
    && Earlier(t.running[id], now + cfg.lease, now + TimeLimit(cfg, id.kind))
    && (exists i: nat ::
          && i < JobLimit(cfg, id.kind)
          && Slot(id.kind, i) !in s.slots && (forall j: nat | j < i :: Slot(id.kind, j) in s.slots)
          && t.slots == s.slots[Slot(id.kind, i) := id])
    && t == s.(records := s.records[id := s.records[id].(status := Processing, owner := Some(token),
                                                         startedAt := Some(now), heartbeatAt := Some(now))],
               running := s.running[id := t.running[id]], slots := t.slots,
               processQueue := s.processQueue - {id}, storyQueue := s.storyQueue - {id},
               jobTouched := t.jobTouched, claimed := t.claimed)
  }

  /** A job is claimed exactly when one more may run and one is queued, and it is the first registered. */
  ghost predicate ClaimLaw(cfg: Config, s: Store, t: Store, kind: Kind, token: Token, now: int, reply: Reply) {
    if |RunningOf(s, kind)| < JobLimit(cfg, kind) && exists id :: In(s, id, Queued) && id.kind == kind then
      && reply.Claimed?
      && var id := reply.record.id;
      && id.kind == kind && Starts(cfg, s, t, id, token, now) && t.records[id] == reply.record
      && (forall other | In(s, other, Queued) && other.kind == kind && other != id ::
            id in s.order && other in s.order && s.order[id] < s.order[other])
    else reply == Idle && t == s
  }

  /** Some execution of the trip and kind has not ended. */
  ghost predicate TripBusy(s: Store, kind: Kind, trip: int) {
    exists id: Identity :: id.kind == kind && id.trip == trip && (In(s, id, Queued) || In(s, id, Processing))
  }

  /** Closing an execution for photo batches drops its buffer and what is queued of it. */
  ghost predicate DropsBuffer(s: Store, t: Store, id: Identity) {
    && t.buffers == s.buffers - {id}
    && (forall e :: e in t.batchQueue <==>
          e in s.batchQueue && !(e.id == id && id in s.buffers && e.batch in s.buffers[id].content.batches))
    && (forall e | e in t.batchQueue :: t.batchQueue[e] == s.batchQueue[e])
  }

  /** The record a request starts as. */
  predicate IsNew(cfg: Config, q: Request, now: int, r: JobRecord) {
    && r == JobRecord(q.id, q.body, q.requestTopic, q.resultTopic, now, r.status, 0, q.total, None, None, None, None,
                      false, r.event, None, 0, false)
    && (if q.invalid.None? then r.status == Queued && r.event == None
        else r.status == Failed && r.event.Some? && SentFor(cfg, Event(q.id, Failed, None, q.invalid), r.event.value))
  }

  ghost predicate RegisterLaw(cfg: Config, s: Store, t: Store, q: Request, now: int, reply: Reply) {
    if q.id in s.records || q.id in s.ignored then reply == Duplicate && t == s
    else if TripBusy(s, q.id.kind, q.id.trip) then
      && reply == Busy && DropsBuffer(s, t, q.id)
      && t == s.(ignored := s.ignored + {q.id}, buffers := t.buffers, batchQueue := t.batchQueue,
                 bufferTouched := t.bufferTouched)
    else
      && reply == Accepted && DropsBuffer(s, t, q.id)
      && q.id in t.records && IsNew(cfg, q, now, t.records[q.id])
      && t == s.(records := s.records[q.id := t.records[q.id]],
                 latest := s.latest[TripKey(q.id.kind, q.id.trip) := q.id],
                 sequence := s.sequence + 1, order := s.order[q.id := s.sequence + 1],
                 processQueue := if q.invalid.None? && q.id.kind.Process? then s.processQueue[q.id := s.sequence + 1]
                                 else s.processQueue,
                 storyQueue := if q.invalid.None? && q.id.kind.Story? then s.storyQueue[q.id := s.sequence + 1]
                               else s.storyQueue,
                 pending := if q.invalid.None? then s.pending else s.pending[q.id := now],
                 buffers := t.buffers, batchQueue := t.batchQueue, bufferTouched := t.bufferTouched,
                 metrics := if q.invalid.None? then s.metrics else t.metrics, jobTouched := t.jobTouched)
  }

  /** The photos of a buffer together with those of a new batch. */
  function Together(batches: map<int, Batch>, photos: Batch): set<int> {
    photos.Keys + set n, p | n in batches && p in batches[n] :: p
  }

  /** The batch may be added: no photo changes its storage key, and nothing grows beyond its bound. */
  ghost predicate RoomFor(cfg: Config, topic: string, batches: map<int, Batch>, batch: int, photos: Batch) {
    && (forall n, p | n in batches && p in batches[n] && p in photos :: batches[n][p] == photos[p])
    && |Together(batches, photos)| <= 200 && |batches| <= 199
    && cfg.bufferBytes(Buffer(topic, batches[batch := photos])) <= 2 * 1024 * 1024
  }

  /** The batch is in the buffer, which lives one TTL from now, and queued; only entries older than a TTL go. */
  ghost predicate Stages(cfg: Config, s: Store, t: Store, id: Identity, batch: int, grown: Buffer, now: int) {
    && t.buffers == s.buffers[id := LiveBuffer(grown, s.clock + cfg.photosTtl)]
    && t.batchQueue.Keys == {Entry(id, batch)} + (set e | e in s.batchQueue && s.batchQueue[e] > now - cfg.photosTtl)
    && (forall e | e in t.batchQueue :: t.batchQueue[e] == if e == Entry(id, batch) then now else s.batchQueue[e])
    && t == s.(buffers := t.buffers, batchQueue := t.batchQueue, bufferTouched := t.bufferTouched)
  }

  function BatchesOf(s: Store, id: Identity): map<int, Batch> {
    if id in s.buffers then s.buffers[id].content.batches else map[]
  }

  ghost function StageAnswer(cfg: Config, s: Store, id: Identity, topic: string, batch: int, photos: Batch): Reply {
    var batches := BatchesOf(s, id);
    if id in s.records || id in s.ignored then Closed
    else if id in s.buffers && s.buffers[id].content.topic != topic then Invalid
    else if batch in batches then if batches[batch] == photos then Duplicate else Invalid
    else if RoomFor(cfg, topic, batches, batch, photos) then StagedBatch
    else Invalid
  }

  ghost predicate StageLaw(cfg: Config, s: Store, t: Store, id: Identity, topic: string, batch: int, photos: Batch,
                           now: int, reply: Reply)
  {
    && reply == StageAnswer(cfg, s, id, topic, batch, photos)
    && if reply == StagedBatch then
         Stages(cfg, s, t, id, batch, Buffer(topic, BatchesOf(s, id)[batch := photos]), now)
       else t == s
  }

  // ---------- The writes, store by store

  ghost function EndedStore(s: Store, before: JobRecord, r: JobRecord, now: int): Store {
    s.(records := s.records[r.id := r], jobTouched := s.jobTouched[r.id := s.clock],
       metrics := if before.status.Terminal() then s.metrics else ObserveEnd(s.metrics, r, now),
       processQueue := if r.id.kind.Process? then s.processQueue - {r.id} else s.processQueue,
       storyQueue := if r.id.kind.Story? then s.storyQueue - {r.id} else s.storyQueue,
       running := s.running - {r.id},
       slots := s.slots - SlotsHeldBy(s.slots, r.id.kind, r.id),
       pending := if r.published then s.pending else s.pending[r.id := Max(now, r.publishUntil)])
  }

  ghost function ReturnedStore(s: Store, r: JobRecord, score: nat): Store {
    s.(records := s.records[r.id := r], jobTouched := s.jobTouched[r.id := s.clock],
       processQueue := if r.id.kind.Process? then s.processQueue[r.id := score] else s.processQueue,
       storyQueue := if r.id.kind.Story? then s.storyQueue[r.id := score] else s.storyQueue,
       running := s.running - {r.id},
       slots := s.slots - SlotsHeldBy(s.slots, r.id.kind, r.id))
  }

  lemma EndedIsApplied(cfg: Config, s: Store, before: JobRecord, r: JobRecord, u: Update, now: int)
    requires r.status.Terminal()
    ensures EndedStore(s, before, r, now) == Apply(cfg, ChangeDelta(cfg, before, r, u, now, s), s)
  {
    hide ObserveEnd, SlotsHeldBy;
  }

  lemma RunningIsApplied(cfg: Config, s: Store, before: JobRecord, r: JobRecord, u: Update, now: int)
    requires r.status.Processing? && r.heartbeatAt.Some? && r.startedAt.Some?
    ensures s.(records := s.records[r.id := r], jobTouched := s.jobTouched[r.id := s.clock],
               running := s.running[r.id := Deadline(cfg, r)])
            == Apply(cfg, ChangeDelta(cfg, before, r, u, now, s), s)
  {
    assert s.slots - {} == s.slots;
  }

  lemma ReturnedIsApplied(cfg: Config, s: Store, before: JobRecord, r: JobRecord, u: Update, now: int)
    requires r.status.Queued? && u.ReturnUnstarted?
    ensures ReturnedStore(s, r, u.score) == Apply(cfg, ChangeDelta(cfg, before, r, u, now, s), s)
  {
    hide SlotsHeldBy, ObserveEnd;
  }

  // ---------- Updates of one record

  /** What the invariant says about one record and its place in the indexes. */
  lemma Placement(cfg: Config, s: Store, id: Identity)
    requires Inv(cfg, s) && id in s.records
    ensures s.records[id].id == id && Wf(cfg, s.records[id])
    ensures !In(s, id, Queued) ==> s.processQueue - {id} == s.processQueue && s.storyQueue - {id} == s.storyQueue
    ensures !In(s, id, Processing) ==> s.running - {id} == s.running && forall x | x in s.slots :: s.slots[x] != id
    ensures In(s, id, Processing) ==>
              && s.records[id].heartbeatAt.Some? && s.records[id].startedAt.Some?
              && id in s.running && s.running[id] == Deadline(cfg, s.records[id])
    ensures id.kind.Process? ==> s.storyQueue - {id} == s.storyQueue
    ensures id.kind.Story? ==> s.processQueue - {id} == s.processQueue
    ensures s.records[id].status.Terminal() ==> (id in s.pending <==> !s.records[id].published)
    ensures !s.records[id].status.Terminal() ==> s.records[id].publishUntil == 0 && !s.records[id].published
  {
    hide RecordsOk, QueueOk, OrderOk, SlotsOk, RunningOk, PendingOk, LatestOk, BuffersOk, BatchQueueOk, MetricsOk,
      ClaimsOk, TimesOk;
    QueueKinds(s, id, Process);
    QueueKinds(s, id, Story);
    SlotKinds(cfg, s, id);
    OutboxKinds(cfg, s, id);
    DeadlineKnown(cfg, s, id);
  }

  lemma DeadlineKnown(cfg: Config, s: Store, id: Identity)
    requires RunningOk(cfg, s)
    ensures id in s.running <==> In(s, id, Processing)
    ensures id in s.running ==>
              && s.records[id].heartbeatAt.Some? && s.records[id].startedAt.Some?
              && s.running[id] == Deadline(cfg, s.records[id])
  {}

  lemma FreesHeld(cfg: Config, s: Store, id: Identity)
    requires cfg.Valid() && SlotsOk(cfg, s)
    ensures Frees(s.slots, s.slots - SlotsHeldBy(s.slots, id.kind, id), id)
  {
    forall x | x in s.slots && s.slots[x] == id ensures x in SlotsHeldBy(s.slots, id.kind, id) {
      assert x == Slot(id.kind, x.index);
    }
  }

  lemma CountedOnce(metrics: map<Series, Histogram>, r: JobRecord, now: int)
    ensures var key := Series(r.id.kind, r.status, TotalTime);
            HistogramOf(ObserveEnd(metrics, r, now), key).count == HistogramOf(metrics, key).count + 1
  {}

  /** A live record saved as terminal. */
  lemma EndWrites(cfg: Config, s: Store, u: Update, r: JobRecord, e: Event, now: int)
    requires cfg.Valid() && Inv(cfg, s) && 0 <= now && Live(s, r.id)
    requires EndedFrom(cfg, s.records[r.id], r, e, r.cancelRequested) && r.status.Terminal()
    ensures Ends(cfg, s, Apply(cfg, ChangeDelta(cfg, s.records[r.id], r, u, now, s), s), r.id, e, r.cancelRequested, now)
  {
    hide Inv, ChangeDelta, Apply, ObserveEnd, SlotsHeldBy, Frees, Wf;
    EndedIsApplied(cfg, s, s.records[r.id], r, u, now);
    Placement(cfg, s, r.id);
    SlotsOfInv(cfg, s);
    FreesHeld(cfg, s, r.id);
    CountedOnce(s.metrics, r, now);
  }

  lemma SlotsOfInv(cfg: Config, s: Store)
    requires Inv(cfg, s)
    ensures SlotsOk(cfg, s)
  {}

  lemma HeartbeatObeys(cfg: Config, s: Store, id: Identity, owner: Token, now: int)
    requires cfg.Valid() && Inv(cfg, s)
    ensures HeartbeatLaw(cfg, s, Act(cfg, s, Do(Change(id, Heartbeat(owner)), now)), id, owner, now,
                         PlanChange(cfg, id, Heartbeat(owner), now, s).reply.Changed?)
  {
    hide Inv, ChangeDelta, Apply, Wf;
    if id in s.records {
      Placement(cfg, s, id);
      if Holds(cfg, s, id, owner, now) {
        RunningIsApplied(cfg, s, s.records[id], s.records[id].(heartbeatAt := Some(now)), Heartbeat(owner), now);
      }
    }
  }

  lemma ProgressVerdict(cfg: Config, s: Store, id: Identity, owner: Token, step: string, done: int, total: int, now: int)
    requires id in s.records && s.records[id].id == id
    ensures var r := s.records[id];
            var verdict := Updated(cfg, Progress(owner, step, done, total), r, now);
            if !Holds(cfg, s, id, owner, now) || r.cancelRequested then verdict == Refuse
            else if total == r.total && 0 <= done <= total && InContract(id.kind, step)
            then verdict == Save(r.(step := Some(step), done := done))
            else verdict == Raise
  {}

  lemma SavedRunning(cfg: Config, s: Store, id: Identity, u: Update, r: JobRecord, now: int)
    requires Inv(cfg, s) && In(s, id, Processing) && Updated(cfg, u, s.records[id], now) == Save(r)
    requires r.id == id && r.status.Processing? && r.heartbeatAt == s.records[id].heartbeatAt && r.startedAt == s.records[id].startedAt
    ensures var t := Act(cfg, s, Do(Change(id, u), now));
            t == s.(records := s.records[id := r], jobTouched := t.jobTouched)
    ensures PlanChange(cfg, id, u, now, s).reply == Changed(r)
  {
    hide Inv, ChangeDelta, Apply, Wf, Updated;
    Placement(cfg, s, id);
    RunningIsApplied(cfg, s, s.records[id], r, u, now);
  }

  lemma ProgressObeys(cfg: Config, s: Store, id: Identity, owner: Token, step: string, done: int, total: int, now: int)
    requires cfg.Valid() && Inv(cfg, s)
    ensures var u := Progress(owner, step, done, total);
            ProgressLaw(cfg, s, Act(cfg, s, Do(Change(id, u), now)), id, owner, step, done, total, now,
                        Plan(cfg, Change(id, u), now, s).reply)
  {
    hide Inv, ChangeDelta, Apply, Wf, Updated, InContract;
    var u := Progress(owner, step, done, total);
    if id in s.records {
      Placement(cfg, s, id);
      ProgressVerdict(cfg, s, id, owner, step, done, total, now);
      var r := s.records[id].(step := Some(step), done := done);
      if Updated(cfg, u, s.records[id], now) == Save(r) { SavedRunning(cfg, s, id, u, r, now); }
    }
  }

  /** `terminate` turns a record into one that ends with the event for this outcome. */
  lemma Terminates(cfg: Config, r: JobRecord, status: Status, result: Option<string>, error: Option<string>)
    requires status.Terminal()
    ensures var n := Terminate(cfg, r, status, result, error);
      && (n.Some? <==> (status == Completed <==> result.Some?) && (status == Failed <==> error.Some?)
                       && (result.Some? ==> cfg.resultOk(r.id.kind, result.value)))
      && (n.Some? ==>
            n.value.status.Terminal() && EndedFrom(cfg, r, n.value, Event(r.id, status, result, error), r.cancelRequested))
  {}

  lemma FinishObeys(cfg: Config, s: Store, id: Identity, owner: Token, status: Status, result: Option<string>,
                    error: Option<string>, now: int)
    requires cfg.Valid() && Inv(cfg, s) && 0 <= now
    ensures var u := Finish(owner, status, result, error);
            FinishLaw(cfg, s, Act(cfg, s, Do(Change(id, u), now)), id, owner, status, result, error, now,
                      Plan(cfg, Change(id, u), now, s).reply)
  {
    hide Inv, ChangeDelta, Apply, Wf, Terminate, EndedFrom, Ends;
    var u := Finish(owner, status, result, error);
    if id in s.records {
      var r := s.records[id];
      Placement(cfg, s, id);
      Terminates(cfg, r, Canceled, None, None);
      if status.Terminal() { Terminates(cfg, r, status, result, error); }
      if PlanChange(cfg, id, u, now, s).Exec? {
        EndWrites(cfg, s, u, Updated(cfg, u, r, now).record,
                  if r.cancelRequested then Event(id, Canceled, None, None) else Event(id, status, result, error), now);
        EndsSaves(cfg, s, u, Updated(cfg, u, r, now).record, now);
      }
    }
  }

  lemma EndsSaves(cfg: Config, s: Store, u: Update, r: JobRecord, now: int)
    requires r.id in s.records
    ensures var t := Apply(cfg, ChangeDelta(cfg, s.records[r.id], r, u, now, s), s); r.id in t.records && t.records[r.id] == r
  {
    hide ObserveEnd, SlotsHeldBy, NextQueue, NextSlots, NextBuffers, NextBatchQueue;
  }

  lemma ReturnVerdict(cfg: Config, s: Store, id: Identity, owner: Token, score: nat, now: int)
    requires id in s.records && s.records[id].id == id
    ensures var r := s.records[id];
            var verdict := Updated(cfg, ReturnUnstarted(owner, score), r, now);
            if !Holds(cfg, s, id, owner, now) then verdict == Refuse
            else if r.cancelRequested then
              && verdict.Save? && verdict.record.status.Terminal() && verdict.record.id == id
              && EndedFrom(cfg, r, verdict.record, Event(id, Canceled, None, None), true)
            else verdict == Save(r.(status := Queued, owner := None, startedAt := None, heartbeatAt := None))
  {
    hide EndedFrom, Terminate;
    Terminates(cfg, s.records[id], Canceled, None, None);
    EndedIdentity(cfg, s.records[id]);
  }

  lemma EndedIdentity(cfg: Config, before: JobRecord)
    ensures forall after, e, cancelled | EndedFrom(cfg, before, after, e, cancelled) ::
              after.id == before.id && after.cancelRequested == cancelled
  {}

  lemma ReturnObeys(cfg: Config, s: Store, id: Identity, owner: Token, score: nat, now: int)
    requires cfg.Valid() && Inv(cfg, s) && 0 <= now
    ensures var u := ReturnUnstarted(owner, score);
            ReturnLaw(cfg, s, Act(cfg, s, Do(Change(id, u), now)), id, owner, score, now,
                      Plan(cfg, Change(id, u), now, s).reply)
  {
    hide Inv, ChangeDelta, Apply, Wf, EndedFrom, Ends, SlotsHeldBy, Frees, Updated;
    var u := ReturnUnstarted(owner, score);
    if id in s.records {
      var r := s.records[id];
      Placement(cfg, s, id);
      ReturnVerdict(cfg, s, id, owner, score, now);
      EndedIdentity(cfg, r);
      if Holds(cfg, s, id, owner, now) {
        var n := Updated(cfg, u, r, now).record;
        if r.cancelRequested {
          EndWrites(cfg, s, u, n, Event(id, Canceled, None, None), now);
          EndsSaves(cfg, s, u, n, now);
        } else {
          ReturnedIsApplied(cfg, s, r, n, u, now);
          SlotsOfInv(cfg, s);
          FreesHeld(cfg, s, id);
        }
      }
    }
  }

  lemma CancelObeys(cfg: Config, s: Store, id: Identity, now: int)
    requires cfg.Valid() && Inv(cfg, s) && 0 <= now && id in s.records
    ensures CancelLaw(cfg, s, Act(cfg, s, Do(Change(id, Cancel), now)), id, now, Plan(cfg, Change(id, Cancel), now, s).reply)
  {
    hide Inv, ChangeDelta, Apply, Wf, Terminate, Ends;
    var r := s.records[id];
    Placement(cfg, s, id);
    Terminates(cfg, r.(cancelRequested := true), Canceled, None, None);
    if r.status.Queued? {
      EndWrites(cfg, s, Cancel, Updated(cfg, Cancel, r, now).record, Event(id, Canceled, None, None), now);
      EndsSaves(cfg, s, Cancel, Updated(cfg, Cancel, r, now).record, now);
    } else if r.status.Processing? {
      StillProcessing(cfg, r);
      RunningIsApplied(cfg, s, r, r.(cancelRequested := true), Cancel, now);
    }
  }

  lemma StillProcessing(cfg: Config, r: JobRecord)
    requires r.heartbeatAt.Some? && r.startedAt.Some?
    ensures Deadline(cfg, r.(cancelRequested := true)) == Deadline(cfg, r)
  {}

  lemma RecoverObeys(cfg: Config, s: Store, id: Identity, now: int)
    requires cfg.Valid() && Inv(cfg, s) && 0 <= now
    ensures RecoverLaw(cfg, s, Act(cfg, s, Do(Change(id, Recover), now)), id, now)
  {
    hide Inv, ChangeDelta, Apply, Wf, Terminate, EndedFrom, Ends;
    if id in s.records {
      var r := s.records[id];
      Placement(cfg, s, id);
      Terminates(cfg, r, Failed, None, Some("TIMEOUT"));
      Terminates(cfg, r, Failed, None, Some("WORKER_DEAD"));
      if r.status.Processing? && PlanChange(cfg, id, Recover, now, s).Exec? {
        var code := if TimedOut(cfg, r, now) then "TIMEOUT" else "WORKER_DEAD";
        EndWrites(cfg, s, Recover, Updated(cfg, Recover, r, now).record, Event(id, Failed, None, Some(code)), now);
      }
    }
  }

  lemma ClaimResultVerdict(cfg: Config, s: Store, id: Identity, publisher: string, now: int)
    requires id in s.records && Wf(cfg, s.records[id])
    ensures var r := s.records[id];
            Updated(cfg, ClaimResult(publisher), r, now)
            == if HasEndedAs(s, id) && !r.published && r.publishUntil <= now
               then Save(r.(publishOwner := Some(publisher), publishUntil := now + cfg.publishLease)) else Refuse
  {}

  lemma SavedEnded(cfg: Config, s: Store, u: Update, r: JobRecord, now: int)
    requires Inv(cfg, s) && HasEndedAs(s, r.id) && r.status.Terminal() && !r.published && now <= r.publishUntil
    ensures var t := Apply(cfg, ChangeDelta(cfg, s.records[r.id], r, u, now, s), s);
            t == s.(records := s.records[r.id := r], pending := s.pending[r.id := r.publishUntil], jobTouched := t.jobTouched)
  {
    hide Inv, ChangeDelta, Apply, SlotsHeldBy, ObserveEnd, Wf;
    Placement(cfg, s, r.id);
    EndedIsApplied(cfg, s, s.records[r.id], r, u, now);
    SlotsOfInv(cfg, s);
    HoldsNoSlot(cfg, s, r.id);
    assert s.slots - {} == s.slots;
  }

  lemma ClaimResultObeys(cfg: Config, s: Store, id: Identity, publisher: string, now: int)
    requires cfg.Valid() && Inv(cfg, s)
    ensures ClaimResultLaw(cfg, s, Act(cfg, s, Do(Change(id, ClaimResult(publisher)), now)), id, publisher, now,
                           Granted(PlanChange(cfg, id, ClaimResult(publisher), now, s).reply))
  {
    hide Inv, ChangeDelta, Apply, Wf, Updated;
    var u := ClaimResult(publisher);
    if id in s.records {
      Placement(cfg, s, id);
      ClaimResultVerdict(cfg, s, id, publisher, now);
      if PlanChange(cfg, id, u, now, s).Exec? {
        SavedEnded(cfg, s, u, s.records[id].(publishOwner := Some(publisher), publishUntil := now + cfg.publishLease), now);
      }
    }
  }

  lemma AcknowledgeObeys(cfg: Config, s: Store, id: Identity, publisher: string, now: int)
    ensures AcknowledgeLaw(s, Act(cfg, s, Do(Acknowledge(id, publisher), now)), id, publisher)
    ensures PlanAcknowledge(id, publisher, s).reply
            == if id in s.records && s.records[id].publishOwner == Some(publisher) then Acknowledged else NotOwner
  {
    assert s.slots - {} == s.slots;
  }

  // ---------- Claims

  lemma SomeQueued(s: Store, kind: Kind)
    requires QueueOk(s, kind)
    ensures s.Queue(kind) != map[] <==> exists id :: In(s, id, Queued) && id.kind == kind
  {
    if s.Queue(kind) != map[] {
      HeadIsQueued(s, kind);
    }
  }

  lemma FirstInLine(cfg: Config, s: Store, kind: Kind, other: Identity)
    requires Inv(cfg, s) && s.Queue(kind) != map[]
    requires In(s, other, Queued) && other.kind == kind && other != Head(s.Queue(kind))
    ensures var id := Head(s.Queue(kind)); id in s.order && other in s.order && s.order[id] < s.order[other]
  {
    hide RecordsOk, QueueOk, OrderOk, SlotsOk, RunningOk, PendingOk, LatestOk, BuffersOk, BatchQueueOk, MetricsOk,
      ClaimsOk, TimesOk;
    var id := Head(s.Queue(kind));
    QueueKinds(s, other, kind);
    QueueScore(s, id, kind);
    QueueScore(s, other, kind);
    if s.order[id] == s.order[other] { DistinctOrder(s, id, other); }
  }

  lemma StartIs(cfg: Config, s: Store, id: Identity, token: Token, index: nat, score: nat, now: int)
    requires In(s, id, Queued) && s.records[id].id == id
    requires s.processQueue - {id} == (if id.kind.Process? then s.processQueue - {id} else s.processQueue)
    requires s.storyQueue - {id} == (if id.kind.Story? then s.storyQueue - {id} else s.storyQueue)
    requires index < JobLimit(cfg, id.kind)
    requires Slot(id.kind, index) !in s.slots && forall j: nat | j < index :: Slot(id.kind, j) in s.slots
    ensures var r := Started(s.records[id], token, now);
            var t := Apply(cfg, StartDelta(cfg, r, index, score, now), s);
            Starts(cfg, s, t, id, token, now) && t.records[id] == r
  {
    assert s.slots - {} == s.slots;
  }

  lemma SlotScan(cfg: Config, s: Store, kind: Kind)
    requires cfg.Valid() && |Occupied(s, kind)| < cfg.Limit(kind)
    ensures var i := FirstFree(s, kind, 0);
            i < cfg.Limit(kind) && Slot(kind, i) !in s.slots && forall j: nat | j < i :: Slot(kind, j) in s.slots
  {
    FreeSlotExists(cfg, s, kind);
    FirstFreeScans(s, kind, 0);
  }

  lemma ClaimReplies(cfg: Config, s: Store, kind: Kind, token: Token, now: int)
    requires cfg.Valid() && Inv(cfg, s)
    ensures var plan := PlanClaim(cfg, kind, token, now, s);
            if |RunningOf(s, kind)| < cfg.Limit(kind) && s.Queue(kind) != map[] then
              var id := Head(s.Queue(kind));
              && In(s, id, Queued) && id.kind == kind && s.records[id].id == id
              && |Occupied(s, kind)| < cfg.Limit(kind)
              && plan == Exec(StartDelta(cfg, Started(s.records[id], token, now), FirstFree(s, kind, 0),
                                         s.Queue(kind)[id], now),
                              Claimed(Started(s.records[id], token, now), s.Queue(kind)[id]))
            else plan == Return(Idle)
  {
    hide RecordsOk, QueueOk, OrderOk, SlotsOk, RunningOk, PendingOk, LatestOk, BuffersOk, BatchQueueOk, MetricsOk,
      ClaimsOk, TimesOk, FirstFree, StaleSlots, StartDelta, Wf, Started;
    NoStaleSlots(cfg, s, kind);
    SlotsMatchRunning(cfg, s, kind);
    if s.Queue(kind) != map[] {
      HeadIsQueued(s, kind);
      IsRecord(cfg, s, Head(s.Queue(kind)));
    }
  }

  lemma OtherQueue(cfg: Config, s: Store, id: Identity)
    requires Inv(cfg, s)
    ensures s.processQueue - {id} == if id.kind.Process? then s.processQueue - {id} else s.processQueue
    ensures s.storyQueue - {id} == if id.kind.Story? then s.storyQueue - {id} else s.storyQueue
  {
    hide RecordsOk, QueueOk, OrderOk, SlotsOk, RunningOk, PendingOk, LatestOk, BuffersOk, BatchQueueOk, MetricsOk,
      ClaimsOk, TimesOk;
    QueueKinds(s, id, Process);
    QueueKinds(s, id, Story);
  }

  lemma QueueOfInv(cfg: Config, s: Store, kind: Kind)
    requires Inv(cfg, s)
    ensures QueueOk(s, kind)
  {}

  lemma ClaimObeys(cfg: Config, s: Store, kind: Kind, token: Token, now: int)
    requires cfg.Valid() && Inv(cfg, s)
    ensures ClaimLaw(cfg, s, Act(cfg, s, Do(Claim(kind, token), now)), kind, token, now,
                     Plan(cfg, Claim(kind, token), now, s).reply)
  {
    hide Inv, FirstFree, StartDelta, Apply, Wf, PlanClaim, QueueOk, RunningOf, Starts;
    ClaimReplies(cfg, s, kind, token, now);
    QueueOfInv(cfg, s, kind);
    SomeQueued(s, kind);
    if |RunningOf(s, kind)| < cfg.Limit(kind) && s.Queue(kind) != map[] {
      var id := Head(s.Queue(kind));
      OtherQueue(cfg, s, id);
      SlotScan(cfg, s, kind);
      forall other | In(s, other, Queued) && other.kind == kind && other != id
        ensures id in s.order && other in s.order && s.order[id] < s.order[other]
      {
        FirstInLine(cfg, s, kind, other);
      }
      StartIs(cfg, s, id, token, FirstFree(s, kind, 0), s.Queue(kind)[id], now);
    }
  }

  // ---------- Registration

  ghost function DroppedStore(s: Store, id: Identity): Store {
    s.(buffers := s.buffers - {id},
       bufferTouched := if id in s.buffers then s.bufferTouched[id := s.clock] else s.bufferTouched,
       batchQueue := if StagedNumbers(s, id) == {} then s.batchQueue
                     else s.batchQueue - (set n | n in StagedNumbers(s, id) :: Entry(id, n)))
  }

  ghost function AdmittedStore(s: Store, r: JobRecord): Store {
    s.(sequence := s.sequence + 1, order := s.order[r.id := s.sequence + 1],
       records := s.records[r.id := r], jobTouched := s.jobTouched[r.id := s.clock],
       latest := s.latest[TripOf(r.id) := r.id])
  }

  ghost function DispatchedStore(s: Store, r: JobRecord, now: int): Store {
    if r.event.Some? then s.(pending := s.pending[r.id := now], metrics := ObserveEnd(s.metrics, r, now))
    else if r.id.kind.Process? then s.(processQueue := s.processQueue[r.id := s.sequence])
    else s.(storyQueue := s.storyQueue[r.id := s.sequence])
  }

  lemma AdmittedInSteps(s: Store, r: JobRecord)
    ensures var numbered := s.(sequence := s.sequence + 1, order := s.order[r.id := s.sequence + 1]);
      var saved := numbered.(records := numbered.records[r.id := r],
                             jobTouched := numbered.jobTouched[r.id := numbered.clock]);
      saved.(latest := saved.latest[TripOf(r.id) := r.id]) == AdmittedStore(s, r)
  {}

  /** The staging half of every registration. */
  lemma DroppedInSteps(cfg: Config, s: Store, d: Delta)
    requires d.dropBuffer && d.staged.None? && d.unstage == StagedNumbers(s, d.id)
    ensures DroppedBy(cfg, s, d, DroppedStore(s, d.id))
  {}

  ghost function SameStagingAs(s: Store, t: Store): Store {
    s.(buffers := t.buffers, bufferTouched := t.bufferTouched, batchQueue := t.batchQueue)
  }

  lemma BusyInSteps(cfg: Config, s: Store, q: Request, now: int)
    requires PlanRegister(cfg, q, now, s).Exec? && PlanRegister(cfg, q, now, s).reply == Busy
    ensures DroppedStore(s, q.id).(ignored := s.ignored + {q.id})
            == Apply(cfg, PlanRegister(cfg, q, now, s).delta, s)
  {
    hide NewRecord, ObserveEnd, Live, NextBuffers, NextBatchQueue, DroppedStore;
    DroppedInSteps(cfg, s, PlanRegister(cfg, q, now, s).delta);
    assert s.slots - {} == s.slots;
  }

  lemma AcceptInSteps(cfg: Config, s: Store, q: Request, now: int)
    requires Accepts(cfg, s, q, now)
    ensures DispatchedStore(AdmittedStore(DroppedStore(s, q.id), NewRecord(cfg, q, now)), NewRecord(cfg, q, now), now)
            == Apply(cfg, PlanRegister(cfg, q, now, s).delta, s)
  {
    hide NewRecord, ObserveEnd, Live, NextBuffers, NextBatchQueue, DroppedStore, NextQueue, DispatchedStore,
      AdmittedStore, Apply, DroppedBy;
    NewRecordOk(cfg, q, now);
    var d := PlanRegister(cfg, q, now, s).delta;
    var r := NewRecord(cfg, q, now);
    DroppedInSteps(cfg, s, d);
    AdmitInSteps(cfg, s, DroppedStore(s, q.id), d, r, now);
  }

  /** `dropped` is `s` with the staging half of `d` carried out. */
  ghost predicate DroppedBy(cfg: Config, s: Store, d: Delta, dropped: Store) {
    && dropped == SameStagingAs(s, dropped)
    && dropped.buffers == NextBuffers(cfg, d, s)
    && dropped.batchQueue == NextBatchQueue(cfg, d, s)
    && dropped.bufferTouched
       == if d.dropBuffer && d.id in s.buffers then s.bufferTouched[d.id := s.clock] else s.bufferTouched
  }

  function AdmitDelta(s: Store, unstage: set<int>, r: JobRecord): Delta {
    NoCommands(r.id).(unstage := unstage, dropBuffer := true, record := Some(r), latest := true,
                      order := Some(s.sequence + 1))
  }

  lemma AdmitInSteps(cfg: Config, s: Store, dropped: Store, d: Delta, r: JobRecord, now: int)
    requires DroppedBy(cfg, s, d, dropped) && r.owner == None
    requires d == if r.event.Some? then AdmitDelta(s, d.unstage, r).(post := Some(now), ended := Some(now))
                  else AdmitDelta(s, d.unstage, r).(enqueue := Some(s.sequence + 1))
    ensures DispatchedStore(AdmittedStore(dropped, r), r, now) == Apply(cfg, d, s)
  {
    hide Apply, DispatchedStore, AdmittedStore, AdmitDelta, DroppedBy;
    if r.event.Some? { AdmitFailed(cfg, s, dropped, d, r, now); } else { AdmitQueued(cfg, s, dropped, d, r, now); }
  }

  lemma AdmitFailed(cfg: Config, s: Store, dropped: Store, d: Delta, r: JobRecord, now: int)
    requires DroppedBy(cfg, s, d, dropped) && r.owner == None && r.event.Some?
    requires d == AdmitDelta(s, d.unstage, r).(post := Some(now), ended := Some(now))
    ensures DispatchedStore(AdmittedStore(dropped, r), r, now) == Apply(cfg, d, s)
  {
    hide ObserveEnd, NextBuffers, NextBatchQueue;
    assert s.slots - {} == s.slots;
  }

  lemma AdmitQueued(cfg: Config, s: Store, dropped: Store, d: Delta, r: JobRecord, now: int)
    requires DroppedBy(cfg, s, d, dropped) && r.owner == None && r.event.None?
    requires d == AdmitDelta(s, d.unstage, r).(enqueue := Some(s.sequence + 1))
    ensures DispatchedStore(AdmittedStore(dropped, r), r, now) == Apply(cfg, d, s)
  {
    hide ObserveEnd, NextBuffers, NextBatchQueue, NextQueue, NextSlots;
    QueuesAfter(d, s);
  }

  lemma QueuesAfter(d: Delta, s: Store)
    requires !d.dequeue && d.release == {} && d.occupy.None? && d.enqueue.Some?
    ensures NextSlots(d, s) == s.slots
    ensures NextQueue(d, s, Process)
            == if d.id.kind.Process? then s.processQueue[d.id := d.enqueue.value] else s.processQueue
    ensures NextQueue(d, s, Story)
            == if d.id.kind.Story? then s.storyQueue[d.id := d.enqueue.value] else s.storyQueue
  {
    assert s.slots - {} == s.slots;
  }

  lemma BusyMeansLive(s: Store, kind: Kind, trip: int)
    requires LatestOk(s)
    ensures TripBusy(s, kind, trip) <==>
            TripKey(kind, trip) in s.latest && Live(s, s.latest[TripKey(kind, trip)])
  {
    if TripBusy(s, kind, trip) {
      var id: Identity :| id.kind == kind && id.trip == trip && (In(s, id, Queued) || In(s, id, Processing));
      assert Live(s, id);
    }
  }

  lemma NewIsNew(cfg: Config, q: Request, now: int)
    ensures IsNew(cfg, q, now, NewRecord(cfg, q, now))
    ensures NewRecord(cfg, q, now).event.Some? <==> q.invalid.Some?
  {}

  lemma DroppedIsDropped(s: Store, id: Identity)
    ensures DropsBuffer(s, DroppedStore(s, id), id)
  {}

  lemma BusyObeys(cfg: Config, s: Store, q: Request, now: int)
    requires q.id !in s.records && q.id !in s.ignored
    requires PlanRegister(cfg, q, now, s).Exec? && PlanRegister(cfg, q, now, s).reply == Busy
    ensures var t := Registered(cfg, s, q, now);
            && DropsBuffer(s, t, q.id)
            && t == s.(ignored := s.ignored + {q.id}, buffers := t.buffers, batchQueue := t.batchQueue,
                       bufferTouched := t.bufferTouched)
  {
    hide NewRecord, Apply, DroppedStore, Live, PlanRegister, DropsBuffer;
    DroppedIsDropped(s, q.id);
    DropsOnly(s, q.id);
    BusyInSteps(cfg, s, q, now);
    SameDrop(s, DroppedStore(s, q.id), DroppedStore(s, q.id).(ignored := s.ignored + {q.id}), q.id);
  }

  lemma SameDrop(s: Store, t: Store, u: Store, id: Identity)
    requires DropsBuffer(s, t, id) && u.buffers == t.buffers && u.batchQueue == t.batchQueue
    ensures DropsBuffer(s, u, id)
  {}

  lemma AdmittedAs(d: Store, r: JobRecord, now: int)
    ensures var t := DispatchedStore(AdmittedStore(d, r), r, now);
            t == d.(records := d.records[r.id := r], latest := d.latest[TripKey(r.id.kind, r.id.trip) := r.id],
                    sequence := d.sequence + 1, order := d.order[r.id := d.sequence + 1],
                    processQueue := if r.event.None? && r.id.kind.Process? then d.processQueue[r.id := d.sequence + 1]
                                    else d.processQueue,
                    storyQueue := if r.event.None? && r.id.kind.Story? then d.storyQueue[r.id := d.sequence + 1]
                                  else d.storyQueue,
                    pending := if r.event.None? then d.pending else d.pending[r.id := now],
                    metrics := if r.event.None? then d.metrics else t.metrics, jobTouched := t.jobTouched)
  {
    hide ObserveEnd;
  }

  lemma AcceptObeys(cfg: Config, s: Store, q: Request, now: int)
    requires Accepts(cfg, s, q, now)
    ensures var t := Registered(cfg, s, q, now);
            && DropsBuffer(s, t, q.id)
            && t.records == s.records[q.id := NewRecord(cfg, q, now)]
            && t == s.(records := t.records,
                       latest := s.latest[TripKey(q.id.kind, q.id.trip) := q.id],
                       sequence := s.sequence + 1, order := s.order[q.id := s.sequence + 1],
                       processQueue := if q.invalid.None? && q.id.kind.Process? then s.processQueue[q.id := s.sequence + 1]
                                       else s.processQueue,
                       storyQueue := if q.invalid.None? && q.id.kind.Story? then s.storyQueue[q.id := s.sequence + 1]
                                     else s.storyQueue,
                       pending := if q.invalid.None? then s.pending else s.pending[q.id := now],
                       buffers := t.buffers, batchQueue := t.batchQueue, bufferTouched := t.bufferTouched,
                       metrics := if q.invalid.None? then s.metrics else t.metrics, jobTouched := t.jobTouched)
  {
    hide NewRecord, Apply, DroppedStore, Live, PlanRegister, DropsBuffer, ObserveEnd, AdmittedStore,
      DispatchedStore;
    DroppedIsDropped(s, q.id);
    DropsOnly(s, q.id);
    AcceptInSteps(cfg, s, q, now);
    NewIsNew(cfg, q, now);
    NewRecordOk(cfg, q, now);
    AdmittedAs(DroppedStore(s, q.id), NewRecord(cfg, q, now), now);
    SameDrop(s, DroppedStore(s, q.id), Registered(cfg, s, q, now), q.id);
  }

  lemma RegisterReplies(cfg: Config, s: Store, q: Request, now: int)
    requires Inv(cfg, s)
    ensures var plan := PlanRegister(cfg, q, now, s);
            if q.id in s.records || q.id in s.ignored then plan == Return(Duplicate)
            else plan.Exec? && plan.reply == if TripBusy(s, q.id.kind, q.id.trip) then Busy else Accepted
  {
    hide RecordsOk, QueueOk, OrderOk, SlotsOk, RunningOk, PendingOk, LatestOk, BuffersOk, BatchQueueOk, MetricsOk,
      ClaimsOk, TimesOk, NewRecord, Live, TripBusy, StagedNumbers;
    BusyMeansLive(s, q.id.kind, q.id.trip);
  }

  lemma RegisterObeys(cfg: Config, s: Store, q: Request, now: int)
    requires Inv(cfg, s)
    ensures RegisterLaw(cfg, s, Act(cfg, s, Do(Register(q), now)), q, now, Plan(cfg, Register(q), now, s).reply)
  {
    hide Inv, NewRecord, Apply, PlanRegister, TripBusy, IsNew, DropsBuffer;
    RegisterReplies(cfg, s, q, now);
    if q.id !in s.records && q.id !in s.ignored {
      if TripBusy(s, q.id.kind, q.id.trip) {
        BusyObeys(cfg, s, q, now);
      } else {
        AcceptObeys(cfg, s, q, now);
        NewIsNew(cfg, q, now);
      }
    }
  }

  lemma DropsOnly(s: Store, id: Identity)
    ensures var t := DroppedStore(s, id);
            t == s.(buffers := t.buffers, batchQueue := t.batchQueue, bufferTouched := t.bufferTouched)
  {}

  // ---------- Photo batches

  lemma TogetherIs(batches: map<int, Batch>, batch: int, photos: Batch)
    requires batch !in batches
    ensures Together(batches, photos) == PhotoIds(batches[batch := photos])
  {
    var grown := batches[batch := photos];
    forall p | p in Together(batches, photos) ensures p in PhotoIds(grown) {
      if p in photos {
        assert p in grown[batch];
      } else {
        var n :| n in batches && p in batches[n];
        assert p in grown[n];
      }
    }
  }

  lemma StageReplies(cfg: Config, s: Store, id: Identity, topic: string, batch: int, photos: Batch, now: int)
    ensures var plan := PlanStage(cfg, id, topic, batch, photos, now, s);
            var grown := Buffer(topic, BatchesOf(s, id)[batch := photos]);
            && plan.reply == StageAnswer(cfg, s, id, topic, batch, photos)
            && (plan.Exec? <==> plan.reply == StagedBatch)
            && (plan.Exec? ==> plan.delta == NoCommands(id).(staged := Some(Staged(grown, batch, now))))
  {
    hide PhotoIds, Together;
    if batch !in BatchesOf(s, id) { TogetherIs(BatchesOf(s, id), batch, photos); }
  }

  lemma StagesIs(cfg: Config, s: Store, id: Identity, batch: int, grown: Buffer, now: int)
    requires cfg.Valid()
    ensures Stages(cfg, s, Apply(cfg, NoCommands(id).(staged := Some(Staged(grown, batch, now))), s), id, batch, grown, now)
  {
    assert s.slots - {} == s.slots;
  }

  lemma StageObeys(cfg: Config, s: Store, id: Identity, topic: string, batch: int, photos: Batch, now: int)
    requires cfg.Valid()
    ensures StageLaw(cfg, s, Act(cfg, s, Do(Stage(id, topic, batch, photos), now)), id, topic, batch, photos, now,
                     Plan(cfg, Stage(id, topic, batch, photos), now, s).reply)
  {
    hide PlanStage, Apply, Stages, StageAnswer;
    StageReplies(cfg, s, id, topic, batch, photos, now);
    StagesIs(cfg, s, id, batch, Buffer(topic, BatchesOf(s, id)[batch := photos]), now);
  }

  // ---------- What a heartbeat buys

  /** The runner still has the job it started then, and was alive no earlier than at `since`. */
  ghost predicate Keeps(s: Store, id: Identity, owner: Token, start: int, since: int) {
    && In(s, id, Processing) && s.records[id].owner == Some(owner) && s.records[id].startedAt == Some(start)
    && s.records[id].heartbeatAt.Some? && since <= s.records[id].heartbeatAt.value
  }

  /** The runner itself ends the job or gives it back. */
  predicate GivesUp(a: Action, id: Identity) {
    a.Do? && a.op.Change? && a.op.id == id && (a.op.update.Finish? || a.op.update.ReturnUnstarted?)
  }

  lemma UpdateKeeps(cfg: Config, s: Store, id: Identity, u: Update, owner: Token, start: int, since: int, now: int)
    requires Inv(cfg, s) && Keeps(s, id, owner, start, since) && Timely(s, Change(id, u), now)
    requires !u.Finish? && !u.ReturnUnstarted?
    requires now < since + cfg.lease && now < start + TimeLimit(cfg, id.kind)
    ensures var v := Updated(cfg, u, s.records[id], now);
            v.Save? ==>
              && v.record.status.Processing? && v.record.owner == Some(owner) && v.record.startedAt == Some(start)
              && v.record.heartbeatAt.Some? && since <= v.record.heartbeatAt.value
  {
    hide RecordsOk, QueueOk, OrderOk, SlotsOk, RunningOk, PendingOk, LatestOk, BuffersOk, BatchQueueOk, MetricsOk,
      ClaimsOk;
    Placement(cfg, s, id);
  }

  lemma SameKeeps(s: Store, t: Store, id: Identity, owner: Token, start: int, since: int)
    requires Keeps(s, id, owner, start, since) && id in t.records && t.records[id] == s.records[id]
    ensures Keeps(t, id, owner, start, since)
  {}

  /** Nothing but `change` writes the record of a running job. */
  lemma OthersLeave(cfg: Config, s: Store, op: Op, now: int, id: Identity)
    requires cfg.Valid() && Inv(cfg, s) && In(s, id, Processing) && !op.Change?
    ensures var t := Act(cfg, s, Do(op, now)); id in t.records && t.records[id] == s.records[id]
  {
    hide Inv, Act, Plan, RegisterLaw, ClaimLaw, StageLaw;
    var t := Act(cfg, s, Do(op, now));
    match op
    case Register(q) =>
      RegisterObeys(cfg, s, q, now);
      RegisterLeaves(cfg, s, t, q, now, Plan(cfg, op, now, s).reply, id);
    case Claim(kind, token) =>
      ClaimObeys(cfg, s, kind, token, now);
      ClaimLeaves(cfg, s, t, kind, token, now, Plan(cfg, op, now, s).reply, id);
    case Acknowledge(other, publisher) =>
      AcknowledgeObeys(cfg, s, other, publisher, now);
      OnlyEndedPublished(cfg, s, id);
    case Stage(other, topic, batch, photos) =>
      StageObeys(cfg, s, other, topic, batch, photos, now);
      StageLeaves(cfg, s, t, other, topic, batch, photos, now, Plan(cfg, op, now, s).reply);
  }

  lemma RegisterLeaves(cfg: Config, s: Store, t: Store, q: Request, now: int, reply: Reply, id: Identity)
    requires RegisterLaw(cfg, s, t, q, now, reply) && id in s.records
    ensures id in t.records && t.records[id] == s.records[id]
  {
    hide TripBusy, DropsBuffer, IsNew;
  }

  lemma ClaimLeaves(cfg: Config, s: Store, t: Store, kind: Kind, token: Token, now: int, reply: Reply, id: Identity)
    requires ClaimLaw(cfg, s, t, kind, token, now, reply) && In(s, id, Processing)
    ensures id in t.records && t.records[id] == s.records[id]
  {
    hide RunningOf;
  }

  lemma OnlyEndedPublished(cfg: Config, s: Store, id: Identity)
    requires Inv(cfg, s) && In(s, id, Processing)
    ensures s.records[id].publishOwner.None?
  {
    hide QueueOk, OrderOk, SlotsOk, RunningOk, PendingOk, LatestOk, BuffersOk, BatchQueueOk, MetricsOk, ClaimsOk, TimesOk;
  }

  lemma StageLeaves(cfg: Config, s: Store, t: Store, id: Identity, topic: string, batch: int, photos: Batch, now: int,
                    reply: Reply)
    requires StageLaw(cfg, s, t, id, topic, batch, photos, now, reply)
    ensures t.records == s.records
  {
    hide StageAnswer;
  }

  lemma ActKeeps(cfg: Config, s: Store, a: Action, id: Identity, owner: Token, start: int, since: int)
    requires cfg.Valid() && Inv(cfg, s) && Enabled(cfg, s, a) && Keeps(s, id, owner, start, since) && !GivesUp(a, id)
    requires s.clock < since + cfg.lease && s.clock < start + TimeLimit(cfg, id.kind)
    ensures Keeps(Act(cfg, s, a), id, owner, start, since)
  {
    hide Inv, Plan, Effect;
    match a
    case Do(Change(other, u), now) =>
      ChangeWritesOne(cfg, s, other, u, now);
      if other == id {
        UpdateKeeps(cfg, s, id, u, owner, start, since, now);
      } else {
        SameKeeps(s, Act(cfg, s, a), id, owner, start, since);
      }
    case Do(op, now) =>
      OthersLeave(cfg, s, op, now, id);
      SameKeeps(s, Act(cfg, s, a), id, owner, start, since);
    case _ => SameKeeps(s, Act(cfg, s, a), id, owner, start, since);
  }

  /** `change` saves the record the update made of it, and no other. */
  lemma ChangeWritesOne(cfg: Config, s: Store, id: Identity, u: Update, now: int)
    requires cfg.Valid() && Inv(cfg, s)
    ensures var t := Act(cfg, s, Do(Change(id, u), now));
            t.records == if id in s.records && Updated(cfg, u, s.records[id], now).Save?
                         then s.records[id := Updated(cfg, u, s.records[id], now).record] else s.records
  {
    hide Inv, Wf, Updated, ChangeDelta, Apply;
    if id in s.records && Updated(cfg, u, s.records[id], now).Save? {
      Placement(cfg, s, id);
      UpdatedIsLegal(cfg, u, s.records[id], now);
      DeltaWritesOne(cfg, s, u, Updated(cfg, u, s.records[id], now).record, now);
    }
  }

  lemma DeltaWritesOne(cfg: Config, s: Store, u: Update, r: JobRecord, now: int)
    requires r.id in s.records
    ensures Apply(cfg, ChangeDelta(cfg, s.records[r.id], r, u, now, s), s).records == s.records[r.id := r]
  {
    hide ObserveEnd, SlotsHeldBy, NextQueue, NextSlots, NextBuffers, NextBatchQueue;
  }

  lemma {:induction false} RunKeeps(cfg: Config, s: Store, acts: seq<Action>, id: Identity, owner: Token, start: int, since: int)
    requires cfg.Valid() && Inv(cfg, s) && Admissible(cfg, s, acts) && Keeps(s, id, owner, start, since)
    requires forall a | a in acts :: !GivesUp(a, id)
    requires var end := Run(cfg, s, acts).clock; end < since + cfg.lease && end < start + TimeLimit(cfg, id.kind)
    ensures Keeps(Run(cfg, s, acts), id, owner, start, since)
    decreases |acts|
  {
    hide Inv, Enabled, Act, Keeps;
    if acts != [] {
      var t := Act(cfg, s, acts[0]);
      ClockRuns(cfg, s, acts);
      ActKeepsInv(cfg, s, acts[0]);
      assert acts[0] in acts;
      ActKeeps(cfg, s, acts[0], id, owner, start, since);
      RunKeeps(cfg, t, acts[1..], id, owner, start, since);
    }
  }

  lemma {:induction false} ClockRuns(cfg: Config, s: Store, acts: seq<Action>)
    requires Admissible(cfg, s, acts)
    ensures s.clock <= Run(cfg, s, acts).clock
    decreases |acts|
  {
    hide Enabled, Act;
    if acts != [] {
      ClockMonotone(cfg, s, acts[0]);
      ClockRuns(cfg, Act(cfg, s, acts[0]), acts[1..]);
    }
  }

  /**
   After a heartbeat the runner keeps its job, whatever all others do, for a whole lease or until
   the time limit, unless it ends the job or gives it back itself.
   */
  lemma HeartbeatProtects(cfg: Config, s: Store, id: Identity, owner: Token, now: int, acts: seq<Action>)
    requires cfg.Valid() && Inv(cfg, s) && Enabled(cfg, s, Do(Change(id, Heartbeat(owner)), now))
    requires Holds(cfg, s, id, owner, now)
    requires var t := Act(cfg, s, Do(Change(id, Heartbeat(owner)), now));
             && Admissible(cfg, t, acts) && (forall a | a in acts :: !GivesUp(a, id))
             && Run(cfg, t, acts).clock < now + cfg.lease
             && Run(cfg, t, acts).clock < s.records[id].startedAt.value + TimeLimit(cfg, id.kind)
    ensures var u := Run(cfg, Act(cfg, s, Do(Change(id, Heartbeat(owner)), now)), acts);
            Holds(cfg, u, id, owner, u.clock)
  {
    hide Inv, Enabled, Act;
    var a := Do(Change(id, Heartbeat(owner)), now);
    var t := Act(cfg, s, a);
    HeartbeatObeys(cfg, s, id, owner, now);
    ActKeepsInv(cfg, s, a);
    RunKeeps(cfg, t, acts, id, owner, s.records[id].startedAt.value, now);
  }

  /** At any time a running job is either held by its runner or overdue, and its score in `running` tells which. */
  lemma HeldUntilOverdue(cfg: Config, acts: seq<Action>, id: Identity, now: int)
    requires Happened(cfg, acts) && In(After(cfg, acts), id, Processing)
    ensures var s := After(cfg, acts);
            && s.records[id].owner.Some? && id in s.running
            && (Holds(cfg, s, id, s.records[id].owner.value, now) <==> !IsOverdue(cfg, s, id, now))
            && (IsOverdue(cfg, s, id, now) <==> s.running[id] <= now)
  {
    hide Inv;
    ReachableInv(cfg, acts);
    Placement(cfg, After(cfg, acts), id);
  }

  // ---------- Latencies

  /** One more observation of a duration, none counted as negative. */
  ghost predicate OneMore(before: Histogram, after: Histogram, duration: int) {
    var elapsed := if duration < 0 then 0 else duration;
    && after.count == before.count + 1 && after.sum == before.sum + elapsed && |after.buckets| == |before.buckets|
    && forall i: nat | i < |before.buckets| ::
         after.buckets[i] == before.buckets[i] + (if i >= |BOUNDS| || elapsed <= BOUNDS[i] then 1 else 0)
  }

  lemma ObservedOnce(h: Histogram, duration: int)
    ensures OneMore(h, Observe(h, duration), duration)
  {}

  /** A job that has ended is observed in the three series of its kind and outcome, and in no other. */
  lemma EndIsObserved(metrics: map<Series, Histogram>, r: JobRecord, now: int)
    ensures var m := ObserveEnd(metrics, r, now);
            var started := if r.startedAt.Some? then r.startedAt.value else now;
            && OneMore(HistogramOf(metrics, Series(r.id.kind, r.status, TotalTime)),
                       HistogramOf(m, Series(r.id.kind, r.status, TotalTime)), now - r.createdAt)
            && OneMore(HistogramOf(metrics, Series(r.id.kind, r.status, QueueTime)),
                       HistogramOf(m, Series(r.id.kind, r.status, QueueTime)), started - r.createdAt)
            && OneMore(HistogramOf(metrics, Series(r.id.kind, r.status, ExecutionTime)),
                       HistogramOf(m, Series(r.id.kind, r.status, ExecutionTime)), now - started)
            && (forall key: Series | key.kind != r.id.kind || key.outcome != r.status :: Get(m, key) == Get(metrics, key))
  {
    hide OneMore, Observe;
    forall phase: Phase, h: Histogram ensures OneMore(h, Observe(h, Elapsed(r, phase, now)), Elapsed(r, phase, now)) {
      ObservedOnce(h, Elapsed(r, phase, now));
    }
  }
}
