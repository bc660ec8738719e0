/**
 The shared job store of the v2 service: the values kept in Redis, and what every
 WATCH/MULTI/EXEC transaction decides to write.

 A transaction is modelled in two halves, as the code runs it.  `Plan` is everything
 before EXEC: it looks at the store and either returns without writing or queues a
 `Delta`, the commands between MULTI and EXEC.  `Apply` is EXEC.  Times are integer
 microseconds of the Redis clock.
 */
module JobModel {
  import opened Wrappers

  datatype Kind = Process | Story

  datatype Status = Queued | Processing | Completed | Failed | Canceled {
    predicate Terminal() { Completed? || Failed? || Canceled? }
  }

  /** The record key is a hash of these three values; the hash is taken as injective. */
  datatype Identity = Identity(kind: Kind, trip: int, execution: string)

  datatype TripKey = TripKey(kind: Kind, trip: int)

  type Token = string

  datatype Event = Event(id: Identity, status: Status, result: Option<string>, error: Option<string>)

  datatype JobRecord = JobRecord(
    id: Identity,
    body: string,
    requestTopic: string,
    resultTopic: string,
    createdAt: int,
    status: Status,
    done: int,
    total: int,
    step: Option<string>,
    owner: Option<Token>,
    heartbeatAt: Option<int>,
    startedAt: Option<int>,
    cancelRequested: bool,
    event: Option<Event>,
    publishOwner: Option<string>,
    publishUntil: int,
    published: bool)

  /** Photo ID to storage key; the list of a batch is sorted and its IDs are distinct. */
  type Batch = map<int, string>

  datatype Buffer = Buffer(topic: string, batches: map<int, Batch>)

  datatype LiveBuffer = LiveBuffer(content: Buffer, expires: int)

  datatype Entry = Entry(id: Identity, batch: int)

  datatype Slot = Slot(kind: Kind, index: nat)

  datatype Config = Config(
    lease: int,
    processTimeout: int,
    storyTimeout: int,
    publishLease: int,
    photosTtl: int,
    storyConcurrency: nat,
    eventBytes: Event -> nat,
    bufferBytes: Buffer -> nat,
    resultOk: (Kind, string) -> bool)
  {
    predicate Valid() {
      && lease > 0 && processTimeout > 0 && storyTimeout > 0
      && publishLease > 0 && photosTtl > 0
      && 1 <= storyConcurrency <= MAX_STORY_CONCURRENCY
    }

    function Timeout(kind: Kind): int {
      if kind.Process? then processTimeout else storyTimeout
    }

    function Limit(kind: Kind): nat {
      if kind.Story? then storyConcurrency else 1
    }
  }

  const MAX_STORY_CONCURRENCY := 4
  const RESULT_MAX_BYTES := 512 * 1024
  const PHOTOS_READY_MAX_BYTES := 2 * 1024 * 1024
  const MAX_STAGED := 200

  function SlotCount(kind: Kind): nat {
    if kind.Story? then MAX_STORY_CONCURRENCY else 1
  }

  function Min(a: int, b: int): int { if a <= b then a else b }

  function Max(a: int, b: int): int { if a >= b then a else b }

  function Get<K, V>(m: map<K, V>, k: K): Option<V> {
    if k in m then Some(m[k]) else None
  }

  // ---------- Latency histograms, written inside the terminal transaction

  datatype Phase = TotalTime | QueueTime | ExecutionTime

  datatype Series = Series(kind: Kind, outcome: Status, phase: Phase)

  datatype Histogram = Histogram(count: nat, sum: int, buckets: seq<nat>)

  /** Upper bounds in microseconds; one more bucket, +Inf, follows the last of them. */
  const BOUNDS: seq<int> := [100_000, 500_000, 1_000_000, 2_000_000, 5_000_000, 10_000_000,
                             30_000_000, 60_000_000, 120_000_000, 300_000_000, 600_000_000]

  const EMPTY_HISTOGRAM := Histogram(0, 0, [0, 0, 0, 0, 0, 0, 0, 0, 0, 0, 0, 0])

  predicate Fits(elapsed: int, bucket: nat) {
    bucket >= |BOUNDS| || elapsed <= BOUNDS[bucket]
  }

  function Bumped(buckets: seq<nat>, elapsed: int): (r: seq<nat>)
    ensures |r| == |buckets|
  {
    seq(|buckets|, i requires 0 <= i < |buckets| =>
      if Fits(elapsed, i) then buckets[i] + 1 else buckets[i])
  }

  function Observe(h: Histogram, micros: int): Histogram {
    var elapsed := Max(0, micros);
    Histogram(h.count + 1, h.sum + elapsed, Bumped(h.buckets, elapsed))
  }

  function HistogramOf(metrics: map<Series, Histogram>, key: Series): Histogram {
    if key in metrics then metrics[key] else EMPTY_HISTOGRAM
  }

  function Elapsed(r: JobRecord, phase: Phase, now: int): int {
    match phase
    case TotalTime => now - r.createdAt
    case QueueTime => (if r.startedAt.Some? then r.startedAt.value else now) - r.createdAt
    case ExecutionTime => if r.startedAt.Some? then now - r.startedAt.value else 0
  }

  function ObserveEnd(metrics: map<Series, Histogram>, r: JobRecord, now: int): map<Series, Histogram> {
    var t := Series(r.id.kind, r.status, TotalTime);
    var q := Series(r.id.kind, r.status, QueueTime);
    var x := Series(r.id.kind, r.status, ExecutionTime);
    metrics[t := Observe(HistogramOf(metrics, t), Elapsed(r, TotalTime, now))]
           [q := Observe(HistogramOf(metrics, q), Elapsed(r, QueueTime, now))]
           [x := Observe(HistogramOf(metrics, x), Elapsed(r, ExecutionTime, now))]
  }

  // ---------- The store

  datatype ClaimNote = ClaimNote(id: Identity, score: nat)

  /**
   The Redis keys of one deployment.  The last five fields are history: the clock, the
   registration number each record was given, what every claim returned, and when the
   record and buffer keys were last written.  No transaction reads them.
   */
  datatype Store = Store(
    records: map<Identity, JobRecord>,
    ignored: set<Identity>,
    latest: map<TripKey, Identity>,
    sequence: nat,
    processQueue: map<Identity, nat>,
    storyQueue: map<Identity, nat>,
    slots: map<Slot, Identity>,
    running: map<Identity, int>,
    pending: map<Identity, int>,
    buffers: map<Identity, LiveBuffer>,
    batchQueue: map<Entry, int>,
    metrics: map<Series, Histogram>,
    clock: int,
    order: map<Identity, nat>,
    claimed: map<Token, ClaimNote>,
    jobTouched: map<Identity, int>,
    bufferTouched: map<Identity, int>)
  {
    function Queue(kind: Kind): map<Identity, nat> {
      if kind.Process? then processQueue else storyQueue
    }
  }

  const EMPTY_STORE :=
    Store(map[], {}, map[], 0, map[], map[], map[], map[], map[], map[], map[], map[],
          0, map[], map[], map[], map[])

  function TripOf(id: Identity): TripKey { TripKey(id.kind, id.trip) }

  datatype Staged = Staged(buffer: Buffer, batch: int, at: int)

  /** The commands queued between MULTI and EXEC, all about one identity. */
  datatype Delta = Delta(
    id: Identity,
    record: Option<JobRecord>,
    ignore: bool,
    latest: bool,
    order: Option<nat>,
    dropBuffer: bool,
    unstage: set<int>,
    staged: Option<Staged>,
    dequeue: bool,
    enqueue: Option<nat>,
    release: set<Slot>,
    occupy: Option<nat>,
    stop: bool,
    run: Option<int>,
    unpost: bool,
    post: Option<int>,
    ended: Option<int>,
    claim: Option<ClaimNote>)

  function NoCommands(id: Identity): Delta {
    Delta(id, None, false, false, None, false, {}, None, false, None, {}, None,
          false, None, false, None, None, None)
  }

  function Without<K, V>(m: map<K, V>, drop: bool, key: K): map<K, V> {
    if drop then m - {key} else m
  }

  function With<K, V>(m: map<K, V>, key: K, value: Option<V>): map<K, V> {
    if value.Some? then m[key := value.value] else m
  }

  function NextQueue(d: Delta, s: Store, kind: Kind): map<Identity, nat> {
    if d.id.kind == kind
    then With(Without(s.Queue(kind), d.dequeue, d.id), d.id, d.enqueue)
    else s.Queue(kind)
  }

  function NextBuffers(cfg: Config, d: Delta, s: Store): map<Identity, LiveBuffer> {
    var kept := Without(s.buffers, d.dropBuffer, d.id);
    if d.staged.Some?
    then kept[d.id := LiveBuffer(d.staged.value.buffer, s.clock + cfg.photosTtl)]
    else kept
  }

  function NextBatchQueue(cfg: Config, d: Delta, s: Store): map<Entry, int> {
    var kept := if d.unstage == {} then s.batchQueue
                else s.batchQueue - (set n | n in d.unstage :: Entry(d.id, n));
    if d.staged.Some? then
      var added := kept[Entry(d.id, d.staged.value.batch) := d.staged.value.at];
      map e | e in added && added[e] > d.staged.value.at - cfg.photosTtl :: added[e]
    else kept
  }

  function NextSlots(d: Delta, s: Store): map<Slot, Identity> {
    With(s.slots - d.release, Slot(d.id.kind, if d.occupy.Some? then d.occupy.value else 0),
         if d.occupy.Some? then Some(d.id) else None)
  }

  function OwnerOf(d: Delta): Token {
    if d.record.Some? && d.record.value.owner.Some? then d.record.value.owner.value else ""
  }

  /** EXEC: every queued command takes effect on the store as it is at that moment. */
  function Apply(cfg: Config, d: Delta, s: Store): Store {
    Store(
      With(s.records, d.id, d.record),
      if d.ignore then s.ignored + {d.id} else s.ignored,
      if d.latest then s.latest[TripOf(d.id) := d.id] else s.latest,
      if d.order.Some? then d.order.value else s.sequence,
      NextQueue(d, s, Process),
      NextQueue(d, s, Story),
      NextSlots(d, s),
      With(Without(s.running, d.stop, d.id), d.id, d.run),
      With(Without(s.pending, d.unpost, d.id), d.id, d.post),
      NextBuffers(cfg, d, s),
      NextBatchQueue(cfg, d, s),
      if d.ended.Some? && d.record.Some?
      then ObserveEnd(s.metrics, d.record.value, d.ended.value)
      else s.metrics,
      s.clock,
      With(s.order, d.id, d.order),
      With(s.claimed, OwnerOf(d), d.claim),
      if d.record.Some? then s.jobTouched[d.id := s.clock] else s.jobTouched,
      if (d.dropBuffer && d.id in s.buffers) || d.staged.Some? then s.bufferTouched[d.id := s.clock] else s.bufferTouched)
  }

  // ---------- Record updates

  /** `owns`: the fencing test every write of a runner passes. */
  predicate Owns(cfg: Config, r: JobRecord, owner: Token, now: int) {
    && r.status.Processing?
    && r.owner == Some(owner)
    && r.heartbeatAt.Some? && now < r.heartbeatAt.value + cfg.lease
    && r.startedAt.Some? && now < r.startedAt.value + cfg.Timeout(r.id.kind)
  }

  /** `check_payload`: only COMPLETED carries a result, only FAILED an error. */
  predicate PayloadOk(cfg: Config, e: Event) {
    && (e.status.Completed? <==> e.result.Some?)
    && (e.status.Failed? <==> e.error.Some?)
    && (e.result.Some? ==> cfg.resultOk(e.id.kind, e.result.value))
  }

  const TOO_LARGE := "RESULT_TOO_LARGE"

  /** `enforce_size_limit`: an oversized envelope is replaced by a small failure. */
  function EnforceSizeLimit(cfg: Config, e: Event): Event {
    if cfg.eventBytes(e) <= RESULT_MAX_BYTES then e
    else Event(e.id, Failed, None, Some(TOO_LARGE))
  }

  /** `terminate`; None when the payload rules raise. */
  function Terminate(cfg: Config, r: JobRecord, status: Status, result: Option<string>, error: Option<string>)
    : Option<JobRecord>
    requires status.Terminal()
  {
    var e := Event(r.id, status, result, error);
    if !PayloadOk(cfg, e) then None
    else
      var sent := EnforceSizeLimit(cfg, e);
      Some(r.(event := Some(sent), status := sent.status, step := None,
              done := if sent.status.Completed? then r.total else r.done))
  }

  datatype Update =
    | ReturnUnstarted(owner: Token, score: nat)
    | Heartbeat(owner: Token)
    | Progress(owner: Token, step: string, done: int, total: int)
    | Finish(owner: Token, status: Status, result: Option<string>, error: Option<string>)
    | Cancel
    | Recover
    | ClaimResult(publisher: string)

  datatype Verdict = Refuse | Raise | Save(record: JobRecord)

  function SaveOrRaise(r: Option<JobRecord>): Verdict {
    if r.Some? then Save(r.value) else Raise
  }

  const PROCESS_STEPS := {"DOWNLOADING", "EMBEDDING", "CLOCK", "LOCATING", "CLUSTERING", "FILTERING", "FINALIZING"}
  const STORY_STEPS := {"SELECTING", "CAPTIONING", "WRITING", "VERIFYING"}

  predicate ProgressOk(r: JobRecord, step: string, done: int, total: int) {
    && step in (if r.id.kind.Process? then PROCESS_STEPS else STORY_STEPS)
    && total == r.total
    && 0 <= done <= total
  }

  predicate TimedOut(cfg: Config, r: JobRecord, now: int) {
    r.startedAt.Some? && now >= r.startedAt.value + cfg.Timeout(r.id.kind)
  }

  predicate Dead(cfg: Config, r: JobRecord, now: int) {
    r.heartbeatAt.Some? && now >= r.heartbeatAt.value + cfg.lease
  }

  /** The `update` closures passed to `change`. */
  function Updated(cfg: Config, u: Update, r: JobRecord, now: int): Verdict {
    match u
    case ReturnUnstarted(owner, _) =>
      if !Owns(cfg, r, owner, now) then Refuse
      else if r.cancelRequested then SaveOrRaise(Terminate(cfg, r, Canceled, None, None))
      else Save(r.(status := Queued, owner := None, startedAt := None, heartbeatAt := None))
    case Heartbeat(owner) =>
      if !Owns(cfg, r, owner, now) then Refuse
      else Save(r.(heartbeatAt := Some(now)))
    case Progress(owner, step, done, total) =>
      if !Owns(cfg, r, owner, now) || r.cancelRequested then Refuse
      else if !ProgressOk(r, step, done, total) then Raise
      else Save(r.(step := Some(step), done := done))
    case Finish(owner, status, result, error) =>
      if !Owns(cfg, r, owner, now) then Refuse
      else if r.cancelRequested then SaveOrRaise(Terminate(cfg, r, Canceled, None, None))
      else if !status.Terminal() then Raise
      else SaveOrRaise(Terminate(cfg, r, status, result, error))
    case Cancel =>
      if r.status.Terminal() then Raise
      else
        var marked := r.(cancelRequested := true);
        if r.status.Queued? then SaveOrRaise(Terminate(cfg, marked, Canceled, None, None))
        else Save(marked)
    case Recover =>
      if !r.status.Processing? then Refuse
      else if !TimedOut(cfg, r, now) && !Dead(cfg, r, now) then Refuse
      else SaveOrRaise(Terminate(cfg, r, Failed, None,
                                 Some(if TimedOut(cfg, r, now) then "TIMEOUT" else "WORKER_DEAD")))
    case ClaimResult(publisher) =>
      if r.event.None? || r.published || r.publishUntil > now then Refuse
      else Save(r.(publishOwner := Some(publisher), publishUntil := now + cfg.publishLease))
  }

  // ---------- The transactions

  datatype Request = Request(
    id: Identity, body: string, requestTopic: string, resultTopic: string, total: int, invalid: Option<string>)

  datatype Op =
    | Register(request: Request)
    | Claim(kind: Kind, token: Token)
    | Change(id: Identity, update: Update)
    | Stage(id: Identity, topic: string, batch: int, photos: Batch)
    | Acknowledge(id: Identity, publisher: string)

  datatype Reply =
    | Accepted | Duplicate | Busy
    | Claimed(record: JobRecord, score: nat) | Idle | Retry
    | Changed(record: JobRecord) | Refused | Raised
    | StagedBatch | Closed | Invalid
    | Acknowledged | NotOwner

  datatype Txn = Return(reply: Reply) | Exec(delta: Delta, reply: Reply)

  /** The record `accept` builds; a body that fails validation is already FAILED. */
  function NewRecord(cfg: Config, q: Request, now: int): JobRecord {
    var r := JobRecord(q.id, q.body, q.requestTopic, q.resultTopic, now, Queued, 0, q.total, None,
                       None, None, None, false, None, None, 0, false);
    if q.invalid.None? then r
    else
      var failed := Terminate(cfg, r, Failed, None, q.invalid);
      if failed.Some? then failed.value else r
  }

  function StagedNumbers(s: Store, id: Identity): set<int> {
    if id in s.buffers then s.buffers[id].content.batches.Keys else {}
  }

  predicate Live(s: Store, id: Identity) {
    id in s.records && !s.records[id].status.Terminal()
  }

  function PlanRegister(cfg: Config, q: Request, now: int, s: Store): Txn {
    if q.id in s.records || q.id in s.ignored then Return(Duplicate)
    else
      var cleared := NoCommands(q.id).(unstage := StagedNumbers(s, q.id), dropBuffer := true);
      if TripOf(q.id) in s.latest && Live(s, s.latest[TripOf(q.id)]) then
        Exec(cleared.(ignore := true), Busy)
      else
        var r := NewRecord(cfg, q, now);
        var saved := cleared.(record := Some(r), latest := true, order := Some(s.sequence + 1));
        Exec(if r.event.Some? then saved.(post := Some(now), ended := Some(now))
             else saved.(enqueue := Some(s.sequence + 1)), Accepted)
  }

  predicate IsHead(queue: map<Identity, nat>, id: Identity) {
    id in queue && forall other | other in queue :: queue[id] <= queue[other]
  }

  lemma HeadExists(queue: map<Identity, nat>)
    requires queue != map[]
    ensures exists id :: IsHead(queue, id)
    decreases |queue|
  {
    var id :| id in queue;
    var rest := queue - {id};
    if rest == map[] {
      assert queue.Keys - {id} == rest.Keys;
      assert queue.Keys == rest.Keys + {id};
      assert IsHead(queue, id);
    } else {
      HeadExists(rest);
      var best :| IsHead(rest, best);
      forall other | other in queue && other != id ensures rest[best] <= queue[other] {
        assert other in rest;
      }
      if queue[id] <= queue[best] { assert IsHead(queue, id); } else { assert IsHead(queue, best); }
    }
  }

  /** ZRANGE queue 0 0: a member with the least score. */
  ghost function Head(queue: map<Identity, nat>): (id: Identity)
    requires queue != map[]
    ensures IsHead(queue, id)
  {
    HeadExists(queue);
    var id :| IsHead(queue, id);
    id
  }

  function Occupied(s: Store, kind: Kind): set<nat> {
    set i: nat | i < SlotCount(kind) && Slot(kind, i) in s.slots
  }

  function StaleSlots(s: Store, kind: Kind): set<Slot> {
    set i: nat | i < SlotCount(kind) && Slot(kind, i) in s.slots
                 && s.slots[Slot(kind, i)] in s.records
                 && s.records[s.slots[Slot(kind, i)]].status.Terminal()
      :: Slot(kind, i)
  }

  /** `occupants.index(None)`, starting at slot `i`; `SlotCount` when every slot is taken. */
  function FirstFree(s: Store, kind: Kind, i: nat): nat
    requires i <= SlotCount(kind)
    decreases SlotCount(kind) - i
  {
    if i == SlotCount(kind) || Slot(kind, i) !in s.slots then i else FirstFree(s, kind, i + 1)
  }

  function Started(r: JobRecord, token: Token, now: int): JobRecord {
    r.(status := Processing, owner := Some(token), startedAt := Some(now), heartbeatAt := Some(now))
  }

  /** What `claim` queues to start record `r` in slot `index`. */
  function StartDelta(cfg: Config, r: JobRecord, index: nat, score: nat, now: int): Delta {
    NoCommands(r.id).(record := Some(r), dequeue := true, occupy := Some(index),
                      run := Some(now + Min(cfg.lease, cfg.Timeout(r.id.kind))),
                      claim := Some(ClaimNote(r.id, score)))
  }

  ghost function PlanClaim(cfg: Config, kind: Kind, token: Token, now: int, s: Store): Txn {
    var queue := s.Queue(kind);
    if StaleSlots(s, kind) != {} then
      Exec(NoCommands(Identity(kind, 0, "")).(release := StaleSlots(s, kind)), Retry)
    else if |Occupied(s, kind)| >= cfg.Limit(kind) || queue == map[] then Return(Idle)
    else
      var id := Head(queue);
      if id !in s.records || !s.records[id].status.Queued? then
        Exec(NoCommands(id).(dequeue := true), Retry)
      else
        var r := Started(s.records[id], token, now);
        Exec(StartDelta(cfg, r, FirstFree(s, kind, 0), queue[id], now), Claimed(r, queue[id]))
  }

  function SlotsHeldBy(slots: map<Slot, Identity>, kind: Kind, id: Identity): set<Slot> {
    set i: nat | i < SlotCount(kind) && Slot(kind, i) in slots && slots[Slot(kind, i)] == id
      :: Slot(kind, i)
  }

  function Deadline(cfg: Config, r: JobRecord): int
    requires r.heartbeatAt.Some? && r.startedAt.Some?
  {
    Min(r.heartbeatAt.value + cfg.lease, r.startedAt.value + cfg.Timeout(r.id.kind))
  }

  /** What `change` queues once `update` has turned the record into `r`. */
  function ChangeDelta(cfg: Config, before: JobRecord, r: JobRecord, u: Update, now: int, s: Store): Delta {
    var saved := NoCommands(r.id).(record := Some(r));
    if r.status.Terminal() then
      saved.(ended := if before.status.Terminal() then None else Some(now),
             dequeue := true, stop := true, release := SlotsHeldBy(s.slots, r.id.kind, r.id),
             post := if r.published then None else Some(Max(now, r.publishUntil)))
    else if r.status.Processing? && r.heartbeatAt.Some? && r.startedAt.Some? then
      saved.(run := Some(Deadline(cfg, r)))
    else if r.status.Queued? && u.ReturnUnstarted? then
      saved.(stop := true, release := SlotsHeldBy(s.slots, r.id.kind, r.id), enqueue := Some(u.score))
    else saved
  }

  function PlanChange(cfg: Config, id: Identity, u: Update, now: int, s: Store): Txn {
    if id !in s.records then Return(Refused)
    else
      match Updated(cfg, u, s.records[id], now)
      case Refuse => Return(Refused)
      case Raise => Return(Raised)
      case Save(r) => Exec(ChangeDelta(cfg, s.records[id], r, u, now, s), Changed(r))
  }

  function BufferOf(s: Store, id: Identity, topic: string): Buffer {
    if id in s.buffers then s.buffers[id].content else Buffer(topic, map[])
  }

  /** Storage keys of a photo that some batch of the buffer already names. */
  ghost predicate Conflicts(b: Buffer, photos: Batch) {
    exists n, p :: n in b.batches && p in b.batches[n] && p in photos && b.batches[n][p] != photos[p]
  }

  function PhotoIds(batches: map<int, Batch>): set<int> {
    set n, p | n in batches && p in batches[n] :: p
  }

  ghost function PlanStage(cfg: Config, id: Identity, topic: string, batch: int, photos: Batch, now: int, s: Store): Txn {
    if id in s.records || id in s.ignored then Return(Closed)
    else
      var buffer := BufferOf(s, id, topic);
      if buffer.topic != topic then Return(Invalid)
      else if batch in buffer.batches then
        Return(if buffer.batches[batch] != photos then Invalid else Duplicate)
      else if Conflicts(buffer, photos) then Return(Invalid)
      else
        var grown := buffer.(batches := buffer.batches[batch := photos]);
        if |PhotoIds(grown.batches)| > MAX_STAGED || |buffer.batches| >= MAX_STAGED then Return(Invalid)
        else if cfg.bufferBytes(grown) > PHOTOS_READY_MAX_BYTES then Return(Invalid)
        else Exec(NoCommands(id).(staged := Some(Staged(grown, batch, now))), StagedBatch)
  }

  function PlanAcknowledge(id: Identity, publisher: string, s: Store): Txn {
    if id !in s.records || s.records[id].publishOwner != Some(publisher) then Return(NotOwner)
    else Exec(NoCommands(id).(record := Some(s.records[id].(published := true)), unpost := true), Acknowledged)
  }

  /** Everything a transaction does between WATCH and EXEC. */
  ghost function Plan(cfg: Config, op: Op, now: int, s: Store): Txn {
    match op
    case Register(q) => PlanRegister(cfg, q, now, s)
    case Claim(kind, token) => PlanClaim(cfg, kind, token, now, s)
    case Change(id, u) => PlanChange(cfg, id, u, now, s)
    case Stage(id, topic, batch, photos) => PlanStage(cfg, id, topic, batch, photos, now, s)
    case Acknowledge(id, publisher) => PlanAcknowledge(id, publisher, s)
  }

  ghost function Effect(cfg: Config, t: Txn, s: Store): Store {
    if t.Exec? then Apply(cfg, t.delta, s) else s
  }
}
