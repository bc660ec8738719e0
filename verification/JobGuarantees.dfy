/** The promises of the job store, each stated for every reachable state or every continuation of a run. */
module JobGuarantees {
  import opened Wrappers
  import opened JobModel
  import opened JobInvariant
  import opened JobPreservation
  import opened JobRuns

  /** The state a deployment is in after `acts`. */
  ghost function After(cfg: Config, acts: seq<Action>): Store {
    Run(cfg, EMPTY_STORE, acts)
  }

  ghost predicate Happened(cfg: Config, acts: seq<Action>) {
    cfg.Valid() && Admissible(cfg, EMPTY_STORE, acts)
  }

  // ---------- One live execution per trip, and deduplication

  lemma LiveIsLatest(s: Store, id: Identity)
    requires LatestOk(s) && Live(s, id)
    ensures TripOf(id) in s.latest && s.latest[TripOf(id)] == id
  {}

  /** At most one execution of a trip and kind is live, and `latest` names it. */
  lemma OneLivePerTrip(cfg: Config, acts: seq<Action>, a: Identity, b: Identity)
    requires Happened(cfg, acts)
    requires Live(After(cfg, acts), a) && Live(After(cfg, acts), b) && TripOf(a) == TripOf(b)
    ensures a == b && Get(After(cfg, acts).latest, TripOf(a)) == Some(a)
  {
    hide RecordsOk, QueueOk, OrderOk, SlotsOk, RunningOk, PendingOk, LatestOk, BuffersOk, BatchQueueOk, MetricsOk,
      ClaimsOk, TimesOk;
    ReachableInv(cfg, acts);
    LiveIsLatest(After(cfg, acts), a);
    LiveIsLatest(After(cfg, acts), b);
  }

  lemma NeverBoth(s: Store, id: Identity)
    requires BuffersOk(s)
    ensures !(id in s.records && id in s.ignored)
  {}

  /** Once accepted or once ignored, an identity stays so in every continuation, and is never both. */
  lemma ClosedForever(cfg: Config, s: Store, acts: seq<Action>, id: Identity)
    requires cfg.Valid() && Inv(cfg, s) && Admissible(cfg, s, acts)
    ensures id in s.records ==> id in Run(cfg, s, acts).records && id !in Run(cfg, s, acts).ignored
    ensures id in s.ignored ==> id in Run(cfg, s, acts).ignored && id !in Run(cfg, s, acts).records
  {
    hide RecordsOk, QueueOk, OrderOk, SlotsOk, RunningOk, PendingOk, LatestOk, BuffersOk, BatchQueueOk, MetricsOk,
      ClaimsOk, TimesOk;
    RunGrows(cfg, s, acts);
    RunKeepsInv(cfg, s, acts);
    NeverBoth(Run(cfg, s, acts), id);
  }

  /** A Kafka message for an identity the store has already accepted or ignored. */
  predicate Redelivery(s: Store, a: Action) {
    && a.Do?
    && ((a.op.Register? && Closing(s, a.op.request.id)) || (a.op.Stage? && Closing(s, a.op.id)))
  }

  /** Delivering settled messages again, any of them and any number of times, changes nothing at all. */
  lemma {:induction false} ReplayChangesNothing(cfg: Config, s: Store, acts: seq<Action>)
    requires forall a | a in acts :: Redelivery(s, a)
    ensures Run(cfg, s, acts) == s
    decreases |acts|
  {
    if acts != [] {
      assert Redelivery(s, acts[0]);
      assert Act(cfg, s, acts[0]) == s;
      ReplayChangesNothing(cfg, s, acts[1..]);
    }
  }

  // ---------- Results are final

  /** A terminal status and its event never change, and the record is never lost. */
  lemma ResultsAreFinal(cfg: Config, s: Store, acts: seq<Action>, id: Identity)
    requires cfg.Valid() && Inv(cfg, s) && Admissible(cfg, s, acts)
    requires id in s.records && s.records[id].status.Terminal()
    ensures var t := Run(cfg, s, acts);
      && id in t.records && t.records[id].status == s.records[id].status
      && t.records[id].event == s.records[id].event && s.records[id].event.Some?
      && (t.records[id].published || id in t.pending)
  {
    hide QueueOk, OrderOk, SlotsOk, RunningOk, PendingOk, LatestOk, BuffersOk, BatchQueueOk, MetricsOk, ClaimsOk,
      TimesOk;
    RunGrows(cfg, s, acts);
    RunKeepsInv(cfg, s, acts);
    IndexesOf(cfg, s, id);
    IndexesOf(cfg, Run(cfg, s, acts), id);
  }

  /** A committed cancellation: nothing later completes the job, requeues it or moves its progress. */
  lemma CancellationPrevails(cfg: Config, s: Store, acts: seq<Action>, id: Identity)
    requires cfg.Valid() && Inv(cfg, s) && Admissible(cfg, s, acts)
    requires Live(s, id) && s.records[id].cancelRequested
    ensures var t := Run(cfg, s, acts);
      && id in t.records && t.records[id].cancelRequested
      && !t.records[id].status.Completed? && !t.records[id].status.Queued?
      && (Live(t, id) ==> t.records[id].step == s.records[id].step && t.records[id].done == s.records[id].done)
      && (forall owner, step, done, total, now ::
            PlanChange(cfg, id, Progress(owner, step, done, total), now, t) == Return(Refused))
  {
    hide QueueOk, OrderOk, SlotsOk, RunningOk, PendingOk, LatestOk, BuffersOk, BatchQueueOk, MetricsOk, ClaimsOk,
      TimesOk;
    RunGrows(cfg, s, acts);
    assert s.records[id].status.Processing? by { assert Wf(cfg, s.records[id]); }
  }

  /** What a cancel request does to a live record: a queued job ends, a running one is marked. */
  lemma CancelMarks(cfg: Config, s: Store, id: Identity, now: int)
    requires cfg.Valid() && Inv(cfg, s) && Live(s, id)
    requires Timely(s, Change(id, Cancel), now)
    ensures var t := Act(cfg, s, Do(Change(id, Cancel), now));
      && id in t.records && t.records[id].cancelRequested
      && (s.records[id].status.Queued? ==> t.records[id].status.Canceled? || t.records[id].status.Failed?)
      && (s.records[id].status.Processing? ==> t.records[id] == s.records[id].(cancelRequested := true))
  {
    hide QueueOk, OrderOk, SlotsOk, RunningOk, PendingOk, LatestOk, BuffersOk, BatchQueueOk, MetricsOk, ClaimsOk,
      TimesOk;
    assert Wf(cfg, s.records[id]);
    assert s.records[id].id == id;
  }

  // ---------- Counters

  lemma CountOf(s: Store, kind: Kind, outcome: Status)
    requires MetricsOk(s) && outcome.Terminal()
    ensures HistogramOf(s.metrics, Series(kind, outcome, TotalTime)).count == |Ended(s.records, kind, outcome)|
  {}

  lemma SeriesOk(s: Store, key: Series)
    requires MetricsOk(s)
    ensures HistogramOk(HistogramOf(s.metrics, key))
  {}

  /** Every terminal record was counted exactly once, in well-formed cumulative buckets. */
  lemma CountsMatch(cfg: Config, acts: seq<Action>, kind: Kind, outcome: Status)
    requires Happened(cfg, acts) && outcome.Terminal()
    ensures var h := HistogramOf(After(cfg, acts).metrics, Series(kind, outcome, TotalTime));
      && h.count == |Ended(After(cfg, acts).records, kind, outcome)|
      && |h.buckets| == |BOUNDS| + 1 && h.buckets[|BOUNDS|] == h.count
      && (forall i, j | 0 <= i <= j <= |BOUNDS| :: h.buckets[i] <= h.buckets[j])
  {
    hide RecordsOk, QueueOk, OrderOk, SlotsOk, RunningOk, PendingOk, LatestOk, BuffersOk, BatchQueueOk, MetricsOk,
      ClaimsOk, TimesOk;
    ReachableInv(cfg, acts);
    CountOf(After(cfg, acts), kind, outcome);
    SeriesOk(After(cfg, acts), Series(kind, outcome, TotalTime));
  }

  // ---------- Photo staging

  /** A live buffer belongs to an execution that is still open, agrees with itself and is bounded. */
  lemma LiveBufferIsOpen(cfg: Config, acts: seq<Action>, id: Identity)
    requires Happened(cfg, acts) && id in After(cfg, acts).buffers
    ensures var s := After(cfg, acts);
      && id.kind.Process? && id !in s.records && id !in s.ignored
      && BufferOk(s.buffers[id].content)
  {
    hide RecordsOk, QueueOk, OrderOk, SlotsOk, RunningOk, PendingOk, LatestOk, BatchQueueOk, MetricsOk,
      ClaimsOk, TimesOk, BufferOk;
    ReachableInv(cfg, acts);
  }

  /** A queued batch whose buffer is live is really in it, even if the buffer expired and came back. */
  lemma QueuedBatchIsStaged(cfg: Config, acts: seq<Action>, e: Entry)
    requires Happened(cfg, acts)
    requires e in After(cfg, acts).batchQueue && e.id in After(cfg, acts).buffers
    ensures e.batch in After(cfg, acts).buffers[e.id].content.batches
  {
    hide RecordsOk, QueueOk, OrderOk, SlotsOk, RunningOk, PendingOk, LatestOk, BuffersOk, BatchQueueOk, MetricsOk,
      ClaimsOk, TimesOk;
    ReachableInv(cfg, acts);
    OldEntry(cfg, After(cfg, acts), e);
  }

  // ---------- Order of service

  /** Every claim starts the job registered first among those of its kind still queued. */
  lemma ClaimsInOrder(cfg: Config, acts: seq<Action>, kind: Kind, token: Token, now: int, other: Identity)
    requires Happened(cfg, acts)
    requires var txn := PlanClaim(cfg, kind, token, now, After(cfg, acts)); txn.Exec? && txn.reply.Claimed?
    requires In(After(cfg, acts), other, Queued) && other.kind == kind
    ensures var s := After(cfg, acts);
      var reply := PlanClaim(cfg, kind, token, now, s).reply;
      && In(s, reply.record.id, Queued) && reply.record.id.kind == kind
      && reply.record.id in s.order && other in s.order
      && reply.score == s.order[reply.record.id]
      && (other == reply.record.id || reply.score < s.order[other])
  {
    hide OrderOk, SlotsOk, RunningOk, PendingOk, LatestOk, BuffersOk, BatchQueueOk, MetricsOk, ClaimsOk,
      TimesOk, RecordsOk, QueueOk, StaleSlots, FirstFree, StartDelta;
    var s := After(cfg, acts);
    ReachableInv(cfg, acts);
    NoStaleSlots(cfg, s, kind);
    HeadIsQueued(s, kind);
    var id := Head(s.Queue(kind));
    IsRecord(cfg, s, id);
    QueueKinds(s, other, kind);
    QueueScore(s, id, kind);
    QueueScore(s, other, kind);
    if s.order[id] == s.order[other] { DistinctOrder(s, id, other); }
  }

  lemma DistinctOrder(s: Store, a: Identity, b: Identity)
    requires OrderOk(s) && a in s.order && b in s.order && s.order[a] == s.order[b]
    ensures a == b
  {}

  /**
   A claim undone at shutdown puts the job back under its registration number, and in every
   continuation that number stays ahead of everything registered later.
   */
  lemma ReturnRegainsPlace(cfg: Config, s: Store, id: Identity, owner: Token, score: nat, now: int, acts: seq<Action>)
    requires cfg.Valid() && Inv(cfg, s) && Enabled(cfg, s, Do(Change(id, ReturnUnstarted(owner, score)), now))
    requires id in s.records && Owns(cfg, s.records[id], owner, now) && !s.records[id].cancelRequested
    requires Admissible(cfg, Act(cfg, s, Do(Change(id, ReturnUnstarted(owner, score)), now)), acts)
    ensures var t := Act(cfg, s, Do(Change(id, ReturnUnstarted(owner, score)), now));
      var u := Run(cfg, t, acts);
      && In(t, id, Queued) && id in s.order && id in t.Queue(id.kind) && t.Queue(id.kind)[id] == s.order[id]
      && id in u.order && u.order[id] == s.order[id]
      && (id in u.Queue(id.kind) ==> u.Queue(id.kind)[id] == s.order[id])
      && (forall other | other in u.order && other !in t.order :: u.order[other] > s.order[id])
  {
    hide RecordsOk, QueueOk, OrderOk, SlotsOk, RunningOk, PendingOk, LatestOk, BuffersOk, BatchQueueOk, MetricsOk,
      ClaimsOk, TimesOk, Owns, Enabled, Evolves, Act;
    var a := Do(Change(id, ReturnUnstarted(owner, score)), now);
    var t := Act(cfg, s, a);
    ReturnedRecord(cfg, s, id, owner, score, now);
    OrderCovers(s, id);
    ActKeepsInv(cfg, s, a);
    ActGrows(cfg, s, a);
    RunKeepsInv(cfg, t, acts);
    RunGrows(cfg, t, acts);
    QueueKinds2(t, id);
    QueueScores2(t, id);
    QueueScores2(Run(cfg, t, acts), id);
    OrderBound(t, id);
  }

  lemma ReturnedRecord(cfg: Config, s: Store, id: Identity, owner: Token, score: nat, now: int)
    requires RecordsOk(cfg, s) && id in s.records
    requires Owns(cfg, s.records[id], owner, now) && !s.records[id].cancelRequested
    ensures In(Act(cfg, s, Do(Change(id, ReturnUnstarted(owner, score)), now)), id, Queued)
  {}

  lemma QueueKinds2(s: Store, id: Identity)
    requires QueueOk(s, Process) && QueueOk(s, Story) && In(s, id, Queued)
    ensures id in s.Queue(id.kind)
  {}

  lemma QueueScores2(s: Store, id: Identity)
    requires QueueOk(s, Process) && QueueOk(s, Story)
    ensures id in s.Queue(id.kind) ==> id in s.order && s.Queue(id.kind)[id] == s.order[id]
  {}

  lemma OrderBound(s: Store, id: Identity)
    requires OrderOk(s) && id in s.order
    ensures s.order[id] <= s.sequence
  {}

  // ---------- Stale runners

  ghost predicate Drives(s: Store, id: Identity, token: Token) {
    In(s, id, Processing) && s.records[id].owner == Some(token)
  }

  ghost predicate Retired(s: Store, token: Token) {
    token in s.claimed && forall id :: !Drives(s, id, token)
  }

  lemma RetiredStays(cfg: Config, s: Store, a: Action, token: Token)
    requires cfg.Valid() && Inv(cfg, s) && Enabled(cfg, s, a) && Retired(s, token)
    ensures Retired(Act(cfg, s, a), token)
  {
    hide QueueOk, OrderOk, SlotsOk, RunningOk, PendingOk, LatestOk, BuffersOk, BatchQueueOk, MetricsOk, ClaimsOk,
      TimesOk, Wf, Updated, FirstFree, StaleSlots, NewRecord, NextBuffers, NextBatchQueue, PlanClaim,
      ObserveEnd, NextQueue, NextSlots, SlotsHeldBy, Drives;
    match a
    case Do(Register(q), now) => RegisterDrives(cfg, s, q, now, token);
    case Do(Claim(kind, drawn), now) => ClaimDrives(cfg, s, kind, drawn, now, token);
    case Do(Change(id, u), now) => ChangeDrives(cfg, s, id, u, now, token);
    case Do(Acknowledge(id, publisher), now) => AcknowledgeDrives(cfg, s, id, publisher, token);
    case Do(Stage(_, _, _, _), _) => SameDrives(s, Act(cfg, s, a), token);
    case Tick(_) => SameDrives(s, Act(cfg, s, a), token);
    case Expire(_) => SameDrives(s, Act(cfg, s, a), token);
    case PopBatch(_) => SameDrives(s, Act(cfg, s, a), token);
  }

  lemma SameDrives(s: Store, t: Store, token: Token)
    requires Retired(s, token) && t.records == s.records && t.claimed == s.claimed
    ensures Retired(t, token)
  {
    forall id ensures !Drives(t, id, token) { assert !Drives(s, id, token); }
  }

  lemma PutDrives(s: Store, t: Store, r: JobRecord, token: Token)
    requires Retired(s, token) && t.records == s.records[r.id := r] && token in t.claimed
    requires r.status.Processing? ==> r.owner != Some(token)
    ensures Retired(t, token)
  {
    forall id ensures !Drives(t, id, token) { assert !Drives(s, id, token); }
  }

  lemma RegisterDrives(cfg: Config, s: Store, q: Request, now: int, token: Token)
    requires Retired(s, token)
    ensures Retired(Effect(cfg, PlanRegister(cfg, q, now, s), s), token)
  {
    hide NewRecord, NextBuffers, NextBatchQueue, ObserveEnd, Live, Drives;
    NewRecordOk(cfg, q, now);
    var t := Effect(cfg, PlanRegister(cfg, q, now, s), s);
    if Accepts(cfg, s, q, now) { PutDrives(s, t, NewRecord(cfg, q, now), token); } else { SameDrives(s, t, token); }
  }

  lemma ClaimDrives(cfg: Config, s: Store, kind: Kind, drawn: Token, now: int, token: Token)
    requires cfg.Valid() && Inv(cfg, s) && Retired(s, token) && drawn !in s.claimed
    ensures Retired(Effect(cfg, PlanClaim(cfg, kind, drawn, now, s), s), token)
  {
    hide QueueOk, OrderOk, SlotsOk, RunningOk, PendingOk, LatestOk, BuffersOk, BatchQueueOk, MetricsOk, ClaimsOk,
      TimesOk, Wf, FirstFree, StaleSlots, StartDelta, Apply, Drives;
    NoStaleSlots(cfg, s, kind);
    if PlanClaim(cfg, kind, drawn, now, s).Exec? {
      HeadIsQueued(s, kind);
      var id := Head(s.Queue(kind));
      var r := Started(s.records[id], drawn, now);
      StartRest(cfg, s, id, drawn, FirstFree(s, kind, 0), now);
      StartWrites(cfg, s, id, drawn, FirstFree(s, kind, 0), now);
      PutDrives(s, StartedStore(cfg, s, r, FirstFree(s, kind, 0), now), r, token);
    }
  }

  lemma ChangeDrives(cfg: Config, s: Store, id: Identity, u: Update, now: int, token: Token)
    requires cfg.Valid() && RecordsOk(cfg, s) && Retired(s, token)
    ensures Retired(Effect(cfg, PlanChange(cfg, id, u, now, s), s), token)
  {
    hide Updated, Wf;
    if PlanChange(cfg, id, u, now, s).Exec? {
      var r := Updated(cfg, u, s.records[id], now).record;
      UpdatedIsLegal(cfg, u, s.records[id], now);
      ChangeRest(cfg, s, u, r, now);
      assert !Drives(s, id, token);
      PutDrives(s, ChangedStore(cfg, s, u, r, now), r, token);
    }
  }

  lemma AcknowledgeDrives(cfg: Config, s: Store, id: Identity, publisher: string, token: Token)
    requires RecordsOk(cfg, s) && Retired(s, token)
    ensures Retired(Effect(cfg, PlanAcknowledge(id, publisher, s), s), token)
  {
    hide Wf;
    if PlanAcknowledge(id, publisher, s).Exec? {
      assert !Drives(s, id, token);
      PutDrives(s, Effect(cfg, PlanAcknowledge(id, publisher, s), s), s.records[id].(published := true), token);
    }
  }

  /** A runner that has lost its job can never write any record again, whatever happens later. */
  lemma {:induction false} StaleRunnerStaysOut(cfg: Config, s: Store, acts: seq<Action>, token: Token, id: Identity, now: int)
    requires cfg.Valid() && Inv(cfg, s) && Admissible(cfg, s, acts) && Retired(s, token)
    ensures var t := Run(cfg, s, acts);
      Retired(t, token) && (id in t.records ==> !Owns(cfg, t.records[id], token, now))
    decreases |acts|
  {
    hide Inv, Enabled, Act;
    if acts == [] {
      assert !Drives(s, id, token);
    } else {
      ActKeepsInv(cfg, s, acts[0]);
      RetiredStays(cfg, s, acts[0], token);
      StaleRunnerStaysOut(cfg, Act(cfg, s, acts[0]), acts[1..], token, id, now);
    }
  }

  // ---------- Publishing

  /** Two successful publish claims on one record are at least one publish lease apart. */
  lemma PublishClaimsApart(cfg: Config, s: Store, id: Identity, p: string, first: int, acts: seq<Action>, q: string, second: int)
    requires cfg.Valid() && Inv(cfg, s) && Enabled(cfg, s, Do(Change(id, ClaimResult(p)), first))
    requires id in s.records && Updated(cfg, ClaimResult(p), s.records[id], first).Save?
    requires Admissible(cfg, Act(cfg, s, Do(Change(id, ClaimResult(p)), first)), acts)
    requires var t := Run(cfg, Act(cfg, s, Do(Change(id, ClaimResult(p)), first)), acts);
      id in t.records && Updated(cfg, ClaimResult(q), t.records[id], second).Save?
    ensures first + cfg.publishLease <= second
  {
    hide Inv, Enabled, Act;
    var a := Do(Change(id, ClaimResult(p)), first);
    var t := Act(cfg, s, a);
    ClaimedUntil(cfg, s, id, p, first);
    ActKeepsInv(cfg, s, a);
    RunGrows(cfg, t, acts);
  }

  lemma ClaimedUntil(cfg: Config, s: Store, id: Identity, p: string, now: int)
    requires Inv(cfg, s) && id in s.records && Updated(cfg, ClaimResult(p), s.records[id], now).Save?
    ensures var t := Act(cfg, s, Do(Change(id, ClaimResult(p)), now));
      id in t.records && t.records[id].publishUntil == now + cfg.publishLease && t.records[id].publishOwner == Some(p)
  {
    hide QueueOk, OrderOk, SlotsOk, RunningOk, PendingOk, LatestOk, BuffersOk, BatchQueueOk, MetricsOk, ClaimsOk,
      TimesOk, Wf;
  }

  ghost predicate NotPublisher(s: Store, id: Identity, p: string) {
    id in s.records && s.records[id].publishOwner != Some(p)
  }

  lemma NotPublisherStays(cfg: Config, s: Store, a: Action, id: Identity, p: string)
    requires cfg.Valid() && Inv(cfg, s) && Enabled(cfg, s, a) && NotPublisher(s, id, p)
    requires !(a.Do? && a.op == Change(id, ClaimResult(p)))
    ensures NotPublisher(Act(cfg, s, a), id, p)
  {
    hide QueueOk, OrderOk, SlotsOk, RunningOk, PendingOk, LatestOk, BuffersOk, BatchQueueOk, MetricsOk, ClaimsOk,
      TimesOk, Wf, Updated, FirstFree, StaleSlots, NewRecord, NextBuffers, NextBatchQueue, PlanClaim,
      ObserveEnd, NextQueue, NextSlots, SlotsHeldBy, PlanChange;
    match a
    case Do(Register(q), now) => NewRecordOk(cfg, q, now);
    case Do(Claim(kind, drawn), now) => ClaimPublisher(cfg, s, kind, drawn, now, id, p);
    case Do(Change(other, u), now) => ChangePublisher(cfg, s, other, u, now, id, p);
    case _ =>
  }

  lemma ClaimPublisher(cfg: Config, s: Store, kind: Kind, drawn: Token, now: int, id: Identity, p: string)
    requires cfg.Valid() && Inv(cfg, s) && NotPublisher(s, id, p)
    ensures NotPublisher(Effect(cfg, PlanClaim(cfg, kind, drawn, now, s), s), id, p)
  {
    hide QueueOk, OrderOk, SlotsOk, RunningOk, PendingOk, LatestOk, BuffersOk, BatchQueueOk, MetricsOk, ClaimsOk,
      TimesOk, Wf, FirstFree, StaleSlots, StartDelta, Apply;
    NoStaleSlots(cfg, s, kind);
    if PlanClaim(cfg, kind, drawn, now, s).Exec? {
      HeadIsQueued(s, kind);
      StartWrites(cfg, s, Head(s.Queue(kind)), drawn, FirstFree(s, kind, 0), now);
    }
  }

  lemma UpdatedPublisher(cfg: Config, u: Update, r: JobRecord, now: int, p: string)
    requires Updated(cfg, u, r, now).Save? && r.publishOwner != Some(p) && u != ClaimResult(p)
    ensures Updated(cfg, u, r, now).record.publishOwner != Some(p)
  {}

  lemma ChangePublisher(cfg: Config, s: Store, other: Identity, u: Update, now: int, id: Identity, p: string)
    requires cfg.Valid() && RecordsOk(cfg, s) && NotPublisher(s, id, p) && (other == id ==> u != ClaimResult(p))
    ensures NotPublisher(Effect(cfg, PlanChange(cfg, other, u, now, s), s), id, p)
  {
    hide Updated, Wf;
    if PlanChange(cfg, other, u, now, s).Exec? {
      var r := Updated(cfg, u, s.records[other], now).record;
      UpdatedIsLegal(cfg, u, s.records[other], now);
      ChangeRest(cfg, s, u, r, now);
      if other == id { UpdatedPublisher(cfg, u, s.records[id], now, p); }
    }
  }

  /** Once another publisher has taken a result over, the old one cannot acknowledge it until it claims again. */
  lemma {:induction false} TakeoverBlocksAcknowledge(cfg: Config, s: Store, acts: seq<Action>, id: Identity, p: string)
    requires cfg.Valid() && Inv(cfg, s) && Admissible(cfg, s, acts) && NotPublisher(s, id, p)
    requires forall a | a in acts :: !(a.Do? && a.op == Change(id, ClaimResult(p)))
    ensures NotPublisher(Run(cfg, s, acts), id, p)
    ensures PlanAcknowledge(id, p, Run(cfg, s, acts)) == Return(NotOwner)
    decreases |acts|
  {
    hide Inv, Enabled, Act;
    if acts != [] {
      ActKeepsInv(cfg, s, acts[0]);
      NotPublisherStays(cfg, s, acts[0], id, p);
      TakeoverBlocksAcknowledge(cfg, Act(cfg, s, acts[0]), acts[1..], id, p);
    }
  }

  // ---------- A claim undone at shutdown

  lemma QueuedFields(cfg: Config, s: Store, id: Identity)
    requires RecordsOk(cfg, s) && In(s, id, Queued)
    ensures s.records[id].id == id && !s.records[id].cancelRequested
    ensures s.records[id].(status := Queued, owner := None, startedAt := None, heartbeatAt := None) == s.records[id]
  {}

  /** Returning a claim that was never started restores every key the claim had written. */
  lemma ReturnUndoesClaim(cfg: Config, s: Store, kind: Kind, token: Token, now: int, later: int)
    requires cfg.Valid() && Inv(cfg, s)
    requires PlanClaim(cfg, kind, token, now, s).reply.Claimed?
    requires Owns(cfg, PlanClaim(cfg, kind, token, now, s).reply.record, token, later)
    ensures var reply := PlanClaim(cfg, kind, token, now, s).reply;
      var t := Act(cfg, s, Do(Claim(kind, token), now));
      var u := Act(cfg, t, Do(Change(reply.record.id, ReturnUnstarted(token, reply.score)), later));
      && u.records == s.records && u.processQueue == s.processQueue && u.storyQueue == s.storyQueue
      && u.slots == s.slots && u.running == s.running && u.pending == s.pending && u.latest == s.latest
      && u.metrics == s.metrics && u.sequence == s.sequence
  {
    hide QueueOk, OrderOk, SlotsOk, RunningOk, PendingOk, LatestOk, BuffersOk, BatchQueueOk, MetricsOk, ClaimsOk,
      TimesOk, RecordsOk, StaleSlots, FirstFree, StartDelta, Apply, ChangeDelta;
    NoStaleSlots(cfg, s, kind);
    HeadIsQueued(s, kind);
    var id := Head(s.Queue(kind));
    QueuedFields(cfg, s, id);
    FreeSlotExists(cfg, s, kind);
    NotRunning(cfg, s, id);
    HoldsNoSlot(cfg, s, id);
    ClaimReturned(cfg, s, id, token, FirstFree(s, kind, 0), now, later);
  }

  lemma ClaimReturned(cfg: Config, s: Store, id: Identity, token: Token, index: nat, now: int, later: int)
    requires In(s, id, Queued) && s.records[id].id == id && id in s.Queue(id.kind) && !s.records[id].cancelRequested
    requires s.records[id].(status := Queued, owner := None, startedAt := None, heartbeatAt := None) == s.records[id]
    requires Slot(id.kind, index) !in s.slots && index < SlotCount(id.kind)
    requires s.running - {id} == s.running && SlotsHeldBy(s.slots, id.kind, id) == {}
    requires Owns(cfg, Started(s.records[id], token, now), token, later)
    ensures var r := Started(s.records[id], token, now);
      var score := s.Queue(id.kind)[id];
      var t := Apply(cfg, StartDelta(cfg, r, index, score, now), s);
      var u := Effect(cfg, PlanChange(cfg, id, ReturnUnstarted(token, score), later, t), t);
      && u.records == s.records && u.processQueue == s.processQueue && u.storyQueue == s.storyQueue
      && u.slots == s.slots && u.running == s.running && u.pending == s.pending && u.latest == s.latest
      && u.metrics == s.metrics && u.sequence == s.sequence
  {
    hide Apply, StartDelta, ChangeDelta, SlotsHeldBy, Owns, PlanChange;
    var r := Started(s.records[id], token, now);
    var score := s.Queue(id.kind)[id];
    var t := Apply(cfg, StartDelta(cfg, r, index, score, now), s);
    ClaimWrites(cfg, s, r, index, score, now);
    ReturnPlan(cfg, t, r, s.records[id], token, score, later);
    HeldAfterClaim(s.slots, id, index);
    ReturnWrites(cfg, t, r, s.records[id], token, score, later);
    QueuesRestored(s, id, t);
  }

  lemma ReturnPlan(cfg: Config, t: Store, r: JobRecord, back: JobRecord, token: Token, score: nat, later: int)
    requires r.id in t.records && t.records[r.id] == r && Owns(cfg, r, token, later) && !r.cancelRequested
    requires back == r.(status := Queued, owner := None, startedAt := None, heartbeatAt := None)
    ensures PlanChange(cfg, r.id, ReturnUnstarted(token, score), later, t).Exec?
    ensures PlanChange(cfg, r.id, ReturnUnstarted(token, score), later, t).delta
            == ChangeDelta(cfg, r, back, ReturnUnstarted(token, score), later, t)
  {
    hide ChangeDelta;
  }

  lemma QueuesRestored(s: Store, id: Identity, t: Store)
    requires id in s.Queue(id.kind)
    requires t.processQueue == (if id.kind.Process? then s.processQueue - {id} else s.processQueue)
    requires t.storyQueue == (if id.kind.Story? then s.storyQueue - {id} else s.storyQueue)
    ensures (if id.kind.Process? then t.processQueue[id := s.Queue(id.kind)[id]] else t.processQueue) == s.processQueue
    ensures (if id.kind.Story? then t.storyQueue[id := s.Queue(id.kind)[id]] else t.storyQueue) == s.storyQueue
  {}

  lemma ClaimWrites(cfg: Config, s: Store, r: JobRecord, index: nat, score: nat, now: int)
    ensures var t := Apply(cfg, StartDelta(cfg, r, index, score, now), s);
      && t.records == s.records[r.id := r]
      && t.processQueue == (if r.id.kind.Process? then s.processQueue - {r.id} else s.processQueue)
      && t.storyQueue == (if r.id.kind.Story? then s.storyQueue - {r.id} else s.storyQueue)
      && t.slots == s.slots[Slot(r.id.kind, index) := r.id]
      && t.running == s.running[r.id := now + Min(cfg.lease, cfg.Timeout(r.id.kind))]
      && t.pending == s.pending && t.latest == s.latest && t.metrics == s.metrics && t.sequence == s.sequence
  {
    assert s.slots - {} == s.slots;
  }

  lemma HeldAfterClaim(slots: map<Slot, Identity>, id: Identity, index: nat)
    requires SlotsHeldBy(slots, id.kind, id) == {} && Slot(id.kind, index) !in slots && index < SlotCount(id.kind)
    ensures var after := slots[Slot(id.kind, index) := id];
      SlotsHeldBy(after, id.kind, id) == {Slot(id.kind, index)}
      && after - SlotsHeldBy(after, id.kind, id) == slots
  {
    var after := slots[Slot(id.kind, index) := id];
    forall i: nat | i < SlotCount(id.kind) && Slot(id.kind, i) in slots ensures slots[Slot(id.kind, i)] != id {
      assert slots[Slot(id.kind, i)] == id ==> Slot(id.kind, i) in SlotsHeldBy(slots, id.kind, id);
    }
    assert SlotsHeldBy(after, id.kind, id) == {Slot(id.kind, index)};
  }

  lemma ReturnWrites(cfg: Config, t: Store, before: JobRecord, r: JobRecord, token: Token, score: nat, later: int)
    requires r.status.Queued?
    ensures var u := Apply(cfg, ChangeDelta(cfg, before, r, ReturnUnstarted(token, score), later, t), t);
      && u.records == t.records[r.id := r]
      && u.processQueue == (if r.id.kind.Process? then t.processQueue[r.id := score] else t.processQueue)
      && u.storyQueue == (if r.id.kind.Story? then t.storyQueue[r.id := score] else t.storyQueue)
      && u.slots == t.slots - SlotsHeldBy(t.slots, r.id.kind, r.id)
      && u.running == t.running - {r.id}
      && u.pending == t.pending && u.latest == t.latest && u.metrics == t.metrics && u.sequence == t.sequence
  {
    hide SlotsHeldBy, NextBuffers, NextBatchQueue, ObserveEnd, Live;
  }
}
