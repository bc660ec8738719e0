/**
 `RedisJobStore` itself: the object whose methods run the transactions.  Each method is
 one attempt whose EXEC goes through, proved against the transaction's `Plan`; that
 attempts may interleave is the business of `Optimistic`.
 */
module JobStore {
  import opened Sets
  import opened Wrappers
  import opened JobModel
  import opened JobInvariant
  import opened JobPreservation
  import opened JobRuns
  import opened JobGuarantees
  import opened JobEffects

  class RedisJobStore {
    const cfg: Config
    var records: map<Identity, JobRecord>
    var ignored: set<Identity>
    var latest: map<TripKey, Identity>
    var sequence: nat
    var processQueue: map<Identity, nat>
    var storyQueue: map<Identity, nat>
    var slots: map<Slot, Identity>
    var running: map<Identity, int>
    var pending: map<Identity, int>
    var buffers: map<Identity, LiveBuffer>
    var batchQueue: map<Entry, int>
    var metrics: map<Series, Histogram>
    var clock: int
    ghost var order: map<Identity, nat>
    ghost var claimed: map<Token, ClaimNote>
    ghost var jobTouched: map<Identity, int>
    ghost var bufferTouched: map<Identity, int>

    ghost function View(): Store
      reads this
    {
      Store(records, ignored, latest, sequence, processQueue, storyQueue, slots, running, pending, buffers,
            batchQueue, metrics, clock, order, claimed, jobTouched, bufferTouched)
    }

    ghost predicate Valid()
      reads this
    {
      cfg.Valid() && Inv(cfg, View())
    }

    constructor (cfg: Config)
      requires cfg.Valid()
      ensures Valid() && this.cfg == cfg && View() == EMPTY_STORE
    {
      this.cfg := cfg;
      records, ignored, latest, sequence := map[], {}, map[], 0;
      processQueue, storyQueue, slots, running, pending := map[], map[], map[], map[], map[];
      buffers, batchQueue, metrics := map[], map[], map[];
      clock, order, claimed, jobTouched, bufferTouched := 0, map[], map[], map[], map[];
      new;
      InitInv(cfg);
    }

    // ---------- Commands shared by the transactions

    /** `observe_commands`: one increment of the count, the sum and every bucket the duration fits. */
    method ObserveCommands(key: Series, micros: int)
      requires |HistogramOf(metrics, key).buckets| == |BOUNDS| + 1
      modifies this`metrics
      ensures metrics == old(metrics)[key := Observe(HistogramOf(old(metrics), key), micros)]
      ensures OneMore(HistogramOf(old(metrics), key), metrics[key], micros)
    {
      var h := HistogramOf(metrics, key);
      var elapsed := Max(0, micros);
      var buckets := h.buckets;
      for i := 0 to |BOUNDS| + 1
        invariant |buckets| == |h.buckets|
        invariant forall j | 0 <= j < i :: buckets[j] == if Fits(elapsed, j) then h.buckets[j] + 1 else h.buckets[j]
        invariant forall j | i <= j < |buckets| :: buckets[j] == h.buckets[j]
      {
        if i == |BOUNDS| || elapsed <= BOUNDS[i] { buckets := buckets[i := buckets[i] + 1]; }
      }
      assert buckets == Bumped(h.buckets, elapsed);
      metrics := metrics[key := Histogram(h.count + 1, h.sum + elapsed, buckets)];
    }

    /** `terminal_commands`: the three phases of a job that has just ended. */
    method TerminalCommands(r: JobRecord, now: int)
      requires forall key | key in metrics :: |metrics[key].buckets| == |BOUNDS| + 1
      modifies this`metrics
      ensures metrics == ObserveEnd(old(metrics), r, now)
    {
      ObserveCommands(Series(r.id.kind, r.status, TotalTime), Elapsed(r, TotalTime, now));
      ObserveCommands(Series(r.id.kind, r.status, QueueTime), Elapsed(r, QueueTime, now));
      ObserveCommands(Series(r.id.kind, r.status, ExecutionTime), Elapsed(r, ExecutionTime, now));
    }

    /** Frees every slot the identity holds. */
    method ReleaseSlots(kind: Kind, id: Identity)
      modifies this`slots
      ensures slots == old(slots) - SlotsHeldBy(old(slots), kind, id)
    {
      ghost var held := SlotsHeldBy(slots, kind, id);
      for i := 0 to SlotCount(kind)
        invariant forall x :: x in slots <==> x in old(slots) && !(x in held && x.index < i)
        invariant forall x | x in slots :: slots[x] == old(slots)[x]
      {
        var x := Slot(kind, i);
        if x in slots && slots[x] == id { slots := slots - {x}; }
      }
    }

    method Enqueue(kind: Kind, id: Identity, score: nat)
      modifies this`processQueue, this`storyQueue
      ensures processQueue == if kind.Process? then old(processQueue)[id := score] else old(processQueue)
      ensures storyQueue == if kind.Story? then old(storyQueue)[id := score] else old(storyQueue)
    {
      if kind.Process? { processQueue := processQueue[id := score]; } else { storyQueue := storyQueue[id := score]; }
    }

    method Dequeue(kind: Kind, id: Identity)
      modifies this`processQueue, this`storyQueue
      ensures processQueue == if kind.Process? then old(processQueue) - {id} else old(processQueue)
      ensures storyQueue == if kind.Story? then old(storyQueue) - {id} else old(storyQueue)
    {
      if kind.Process? { processQueue := processQueue - {id}; } else { storyQueue := storyQueue - {id}; }
    }

    method Save(id: Identity, r: JobRecord)
      modifies this`records, this`jobTouched
      ensures View() == old(View()).(records := old(records)[id := r], jobTouched := old(jobTouched)[id := clock])
    {
      records := records[id := r];
      jobTouched := jobTouched[id := clock];
    }

    // ---------- change and the updates built on it

    /** Takes the identity out of its queue, its slots and `running`. */
    method Unindex(id: Identity)
      modifies this`processQueue, this`storyQueue, this`running, this`slots
      ensures View() == UnindexedStore(old(View()), id)
    {
      hide SlotsHeldBy;
      Dequeue(id.kind, id);
      running := running - {id};
      ReleaseSlots(id.kind, id);
    }

    /** Counts a job the first time it is terminal. */
    method CountEnd(before: JobRecord, r: JobRecord, now: int)
      requires forall key | key in metrics :: |metrics[key].buckets| == |BOUNDS| + 1
      modifies this`metrics
      ensures View() == old(View()).(metrics :=
                if before.status.Terminal() then old(metrics) else ObserveEnd(old(metrics), r, now))
    {
      hide ObserveEnd;
      if !before.status.Terminal() { TerminalCommands(r, now); }
    }

    /** Puts an unpublished result in the outbox. */
    method Post(r: JobRecord, now: int)
      modifies this`pending
      ensures View() == old(View()).(pending :=
                if r.published then old(pending) else old(pending)[r.id := Max(now, r.publishUntil)])
    {
      if !r.published { pending := pending[r.id := Max(now, r.publishUntil)]; }
    }

    /** The commands for a record that has just ended. */
    method WriteEnded(before: JobRecord, r: JobRecord, now: int)
      requires forall key | key in metrics :: |metrics[key].buckets| == |BOUNDS| + 1
      modifies this
      ensures View() == EndedStore(old(View()), before, r, now)
    {
      hide ObserveEnd, SlotsHeldBy, EndedStore, UnindexedStore;
      ghost var s := View();
      Save(r.id, r);
      CountEnd(before, r, now);
      Unindex(r.id);
      Post(r, now);
      EndedInSteps(s, before, r, now);
    }

    /** The commands for a record that keeps running. */
    method WriteRunning(r: JobRecord)
      requires r.heartbeatAt.Some? && r.startedAt.Some?
      modifies this
      ensures View() == old(View()).(records := old(records)[r.id := r], jobTouched := old(jobTouched)[r.id := clock],
                                     running := old(running)[r.id := Deadline(cfg, r)])
    {
      Save(r.id, r);
      running := running[r.id := Deadline(cfg, r)];
    }

    /** Takes the identity off its slots and `running` and back into its queue. */
    method Requeue(id: Identity, score: nat)
      modifies this`processQueue, this`storyQueue, this`running, this`slots
      ensures View() == RequeuedStore(old(View()), id, score)
    {
      hide SlotsHeldBy;
      running := running - {id};
      ReleaseSlots(id.kind, id);
      Enqueue(id.kind, id, score);
    }

    /** The commands for a claim that is undone. */
    method WriteReturned(r: JobRecord, score: nat)
      modifies this
      ensures View() == ReturnedStore(old(View()), r, score)
    {
      hide SlotsHeldBy, RequeuedStore, ReturnedStore;
      ghost var s := View();
      Save(r.id, r);
      Requeue(r.id, score);
      ReturnedInSteps(s, r, score);
    }

    method Change(id: Identity, update: Update, now: int) returns (reply: Reply)
      requires Valid() && Enabled(cfg, View(), Do(Op.Change(id, update), now))
      modifies this
      ensures Valid() && View() == Act(cfg, old(View()), Do(Op.Change(id, update), now))
      ensures reply == PlanChange(cfg, id, update, now, old(View())).reply
    {
      hide Inv, Enabled, Updated, Apply, ChangeDelta, EndedStore, ReturnedStore;
      ghost var s := View();
      ActKeepsInv(cfg, s, Do(Op.Change(id, update), now));
      if id !in records { return Refused; }
      var before := records[id];
      match Updated(cfg, update, before, now) {
        case Refuse => return Refused;
        case Raise => return Raised;
        case Save(r) =>
          RecordsFit(cfg, s, id, update, now);
          if r.status.Terminal() {
            EndedIsApplied(cfg, s, before, r, update, now);
            WriteEnded(before, r, now);
          } else if r.status.Processing? {
            RunningIsApplied(cfg, s, before, r, update, now);
            WriteRunning(r);
          } else {
            ReturnedIsApplied(cfg, s, before, r, update, now);
            WriteReturned(r, update.score);
          }
          reply := Changed(r);
      }
    }

    // ---------- register

    /** Removes the staged batches of an execution and their entries in the batch queue. */
    method DropStaging(id: Identity)
      modifies this`buffers, this`batchQueue, this`bufferTouched
      ensures View() == DroppedStore(old(View()), id)
    {
      var members := if id in buffers then buffers[id].content.batches.Keys else {};
      if members != {} { batchQueue := batchQueue - (set n | n in members :: Entry(id, n)); }
      if id in buffers { bufferTouched := bufferTouched[id := clock]; }
      buffers := buffers - {id};
    }

    /** Gives an identity the next registration number. */
    method Number(id: Identity)
      modifies this`sequence, this`order
      ensures View() == old(View()).(sequence := old(sequence) + 1, order := old(order)[id := old(sequence) + 1])
    {
      sequence := sequence + 1;
      order := order[id := sequence];
    }

    /** Numbers and stores a new record and makes it the latest of its trip. */
    method Admit(r: JobRecord)
      modifies this`records, this`jobTouched, this`latest, this`sequence, this`order
      ensures View() == AdmittedStore(old(View()), r)
    {
      hide AdmittedStore;
      ghost var s := View();
      Number(r.id);
      Save(r.id, r);
      SetLatest(r.id);
      AdmittedInSteps(s, r);
    }

    method SetLatest(id: Identity)
      modifies this`latest
      ensures View() == old(View()).(latest := old(latest)[TripOf(id) := id])
    {
      latest := latest[TripOf(id) := id];
    }

    /** Queues a new record, or posts it at once when intake has already failed it. */
    method Dispatch(r: JobRecord, now: int)
      requires forall key | key in metrics :: |metrics[key].buckets| == |BOUNDS| + 1
      modifies this`processQueue, this`storyQueue, this`pending, this`metrics
      ensures View() == DispatchedStore(old(View()), r, now)
    {
      hide ObserveEnd;
      if r.event.Some? {
        pending := pending[r.id := now];
        TerminalCommands(r, now);
      } else {
        Enqueue(r.id.kind, r.id, sequence);
      }
    }

    method Ignore(id: Identity)
      modifies this`ignored
      ensures View() == old(View()).(ignored := old(ignored) + {id})
    {
      ignored := ignored + {id};
    }

    method Register(q: Request, now: int) returns (reply: Reply)
      requires Valid() && Enabled(cfg, View(), Do(Op.Register(q), now))
      modifies this
      ensures Valid() && View() == Act(cfg, old(View()), Do(Op.Register(q), now))
      ensures RegisterLaw(cfg, old(View()), View(), q, now, reply)
    {
      hide Inv, Enabled, NewRecord, Apply, DroppedStore, AdmittedStore, DispatchedStore, RegisterLaw;
      ghost var s := View();
      RegisterObeys(cfg, s, q, now);
      ActKeepsInv(cfg, s, Do(Op.Register(q), now));
      if q.id in records || q.id in ignored { return Duplicate; }
      HistogramsFit(cfg, s);
      NewRecordOk(cfg, q, now);
      var trip := TripOf(q.id);
      var busy := trip in latest && latest[trip] in records && !records[latest[trip]].status.Terminal();
      DropStaging(q.id);
      if busy {
        BusyInSteps(cfg, s, q, now);
        Ignore(q.id);
        return Busy;
      }
      AcceptInSteps(cfg, s, q, now);
      var r := NewRecord(cfg, q, now);
      Admit(r);
      Dispatch(r, now);
      return Accepted;
    }

    // ---------- claim

    /** ZRANGE queue 0 0. */
    method First(queue: map<Identity, nat>) returns (id: Identity)
      requires queue != map[]
      ensures IsHead(queue, id)
    {
      id :| id in queue;
      var rest := queue.Keys - {id};
      while rest != {}
        invariant rest <= queue.Keys && id in queue
        invariant forall other | other in queue && other !in rest :: queue[id] <= queue[other]
        decreases rest
      {
        var other :| other in rest;
        if queue[other] < queue[id] { id := other; }
        rest := rest - {other};
      }
    }

    /** Reads the slots of a kind: how many are taken, the first free one, and those left by ended jobs. */
    method ScanSlots(kind: Kind) returns (taken: nat, free: nat, stale: set<Slot>)
      ensures taken == |Occupied(View(), kind)|
      ensures free == FirstFree(View(), kind, 0)
      ensures stale == StaleSlots(View(), kind)
    {
      taken, free, stale := 0, SlotCount(kind), {};
      ghost var seen: set<nat> := {};
      FirstFreeScans(View(), kind, 0);
      for i := 0 to SlotCount(kind)
        invariant forall j: nat :: j in seen <==> j < i && Slot(kind, j) in slots
        invariant taken == |seen|
        invariant free == if FirstFree(View(), kind, 0) < i then FirstFree(View(), kind, 0) else SlotCount(kind)
        invariant forall x :: x in stale <==> x in StaleSlots(View(), kind) && x.index < i
      {
        var x := Slot(kind, i);
        if x in slots {
          seen := seen + {i};
          taken := taken + 1;
          if slots[x] in records && records[slots[x]].status.Terminal() { stale := stale + {x}; }
        } else if free == SlotCount(kind) {
          free := i;
        }
      }
      assert seen == Occupied(View(), kind);
      assert forall x | x in StaleSlots(View(), kind) :: x.index < SlotCount(kind);
    }

    /** Moves an identity from its queue to a slot, with a deadline. */
    method Occupy(id: Identity, index: nat, deadline: int)
      modifies this`processQueue, this`storyQueue, this`slots, this`running
      ensures View() == OccupiedStore(old(View()), id, index, deadline)
    {
      Dequeue(id.kind, id);
      slots := slots[Slot(id.kind, index) := id];
      running := running[id := deadline];
    }

    /** Starts a queued record in a free slot. */
    method Start(r: JobRecord, index: nat, score: nat, token: Token, now: int)
      requires r.owner == Some(token)
      modifies this
      ensures View() == BegunStore(cfg, old(View()), r, index, score, token, now)
    {
      hide BegunStore, OccupiedStore;
      ghost var s := View();
      Save(r.id, r);
      Occupy(r.id, index, now + Min(cfg.lease, cfg.Timeout(r.id.kind)));
      Note(token, ClaimNote(r.id, score));
      BegunInSteps(cfg, s, r, index, score, token, now);
    }

    ghost method Note(token: Token, note: ClaimNote)
      modifies this`claimed
      ensures View() == old(View()).(claimed := old(claimed)[token := note])
    {
      claimed := claimed[token := note];
    }

    method Claim(kind: Kind, token: Token, now: int) returns (reply: Reply)
      requires Valid() && Enabled(cfg, View(), Do(Op.Claim(kind, token), now))
      modifies this
      ensures Valid() && View() == Act(cfg, old(View()), Do(Op.Claim(kind, token), now))
      ensures ClaimLaw(cfg, old(View()), View(), kind, token, now, reply)
    {
      hide Inv, Enabled, Apply, StartDelta, BegunStore, FirstFree, StaleSlots, Occupied, ClaimLaw;
      ghost var s := View();
      ClaimObeys(cfg, s, kind, token, now);
      ActKeepsInv(cfg, s, Do(Op.Claim(kind, token), now));
      NothingStale(cfg, s, kind);
      var taken, free, stale := ScanSlots(kind);
      var queue := if kind.Process? then processQueue else storyQueue;
      if taken >= cfg.Limit(kind) || queue == map[] { return Idle; }
      var id := First(queue);
      QueueHead(cfg, s, kind, id);
      var r := Started(records[id], token, now);
      StartInSteps(cfg, s, r, free, queue[id], token, now);
      Start(r, free, queue[id], token, now);
      reply := Claimed(r, queue[id]);
    }

    // ---------- The remaining operations of a runner, an API replica and the watchdog

    method Heartbeat(id: Identity, owner: Token, now: int) returns (ok: bool)
      requires Valid() && Enabled(cfg, View(), Do(Op.Change(id, Update.Heartbeat(owner)), now))
      modifies this
      ensures Valid() && View() == Act(cfg, old(View()), Do(Op.Change(id, Update.Heartbeat(owner)), now))
      ensures HeartbeatLaw(cfg, old(View()), View(), id, owner, now, ok)
    {
      hide Inv, Enabled, Act, PlanChange, HeartbeatLaw;
      HeartbeatObeys(cfg, View(), id, owner, now);
      var reply := Change(id, Update.Heartbeat(owner), now);
      ok := reply.Changed?;
    }

    /** `progress`: refused without the lease or after a cancel request; a report out of contract raises. */
    method Progress(id: Identity, owner: Token, step: string, done: int, total: int, now: int) returns (reply: Reply)
      requires Valid() && Enabled(cfg, View(), Do(Op.Change(id, Update.Progress(owner, step, done, total)), now))
      modifies this
      ensures Valid()
      ensures View() == Act(cfg, old(View()), Do(Op.Change(id, Update.Progress(owner, step, done, total)), now))
      ensures ProgressLaw(cfg, old(View()), View(), id, owner, step, done, total, now, reply)
    {
      hide Inv, Enabled, Act, PlanChange, ProgressLaw;
      ProgressObeys(cfg, View(), id, owner, step, done, total, now);
      reply := Change(id, Update.Progress(owner, step, done, total), now);
    }

    /** `return_unstarted`: the claim is undone, or ends as CANCELED when a cancel request came in between. */
    method ReturnUnstarted(id: Identity, owner: Token, score: nat, now: int) returns (reply: Reply)
      requires Valid() && Enabled(cfg, View(), Do(Op.Change(id, Update.ReturnUnstarted(owner, score)), now))
      modifies this
      ensures Valid()
      ensures View() == Act(cfg, old(View()), Do(Op.Change(id, Update.ReturnUnstarted(owner, score)), now))
      ensures ReturnLaw(cfg, old(View()), View(), id, owner, score, now, reply)
    {
      hide Inv, Enabled, Act, PlanChange, ReturnLaw;
      ghost var s := View();
      assert 0 <= now by { TimeIsPast(cfg, s, Op.Change(id, Update.ReturnUnstarted(owner, score)), now); }
      ReturnObeys(cfg, s, id, owner, score, now);
      reply := Change(id, Update.ReturnUnstarted(owner, score), now);
    }

    /**
     `finish`: refused without the lease, raises on a payload the event rules reject, and otherwise
     ends the job, as CANCELED when that was requested.
     */
    method Finish(id: Identity, owner: Token, status: Status, result: Option<string>, error: Option<string>, now: int)
      returns (reply: Reply)
      requires Valid() && Enabled(cfg, View(), Do(Op.Change(id, Update.Finish(owner, status, result, error)), now))
      modifies this
      ensures Valid()
      ensures View() == Act(cfg, old(View()), Do(Op.Change(id, Update.Finish(owner, status, result, error)), now))
      ensures FinishLaw(cfg, old(View()), View(), id, owner, status, result, error, now, reply)
    {
      hide Inv, Enabled, Act, PlanChange, FinishLaw;
      ghost var s := View();
      assert 0 <= now by { TimeIsPast(cfg, s, Op.Change(id, Update.Finish(owner, status, result, error)), now); }
      FinishObeys(cfg, s, id, owner, status, result, error, now);
      reply := Change(id, Update.Finish(owner, status, result, error), now);
    }

    /** `cancel`: the latest execution of the trip; None when there is none. */
    method Cancel(kind: Kind, trip: int, now: int) returns (reply: Option<Reply>)
      requires Valid()
      requires forall id | id in records :: Enabled(cfg, View(), Do(Op.Change(id, Update.Cancel), now))
      modifies this
      ensures Valid()
      ensures reply.None? <==> TripKey(kind, trip) !in old(latest)
      ensures reply.None? ==> View() == old(View())
      ensures reply.Some? ==>
                var id := old(latest)[TripKey(kind, trip)];
                && id in old(records) && View() == Act(cfg, old(View()), Do(Op.Change(id, Update.Cancel), now))
                && CancelLaw(cfg, old(View()), View(), id, now, reply.value)
    {
      hide Inv, Enabled, Act, PlanChange, CancelLaw;
      if TripKey(kind, trip) !in latest { return None; }
      var id := latest[TripKey(kind, trip)];
      LatestExists(cfg, View(), TripKey(kind, trip));
      ghost var s := View();
      assert 0 <= now by { TimeIsPast(cfg, s, Op.Change(id, Update.Cancel), now); }
      CancelObeys(cfg, s, id, now);
      var r := Change(id, Update.Cancel, now);
      reply := Some(r);
    }

    /** ZRANGEBYSCORE running -inf now LIMIT 0 100. */
    method Overdue(now: int) returns (due: seq<Identity>)
      ensures |due| <= SCAN_ROWS
      ensures forall i | 0 <= i < |due| :: due[i] in running && running[due[i]] <= now
      ensures forall i, j | 0 <= i < j < |due| :: due[i] != due[j]
      ensures |due| < SCAN_ROWS ==> forall id | id in running && running[id] <= now :: id in due
    {
      due := [];
      var rest := running.Keys;
      while rest != {} && |due| < SCAN_ROWS
        invariant rest <= running.Keys && |due| <= SCAN_ROWS
        invariant forall i | 0 <= i < |due| :: due[i] in running && running[due[i]] <= now && due[i] !in rest
        invariant forall i, j | 0 <= i < j < |due| :: due[i] != due[j]
        invariant forall id | id in running && id !in rest && running[id] <= now :: id in due
        decreases rest
      {
        var id :| id in rest;
        rest := rest - {id};
        if running[id] <= now { due := due + [id]; }
      }
    }

    /** One uninterrupted pass of `recover`: every overdue record ends as FAILED, and no other record is written. */
    method Recover(now: int)
      requires Valid() && now == clock
      modifies this
      ensures Valid()
      ensures forall id | id in running :: now < running[id]
      ensures records.Keys == old(records).Keys
      ensures forall id | id in old(records) :: Recovered(cfg, old(View()), View(), id, now)
    {
      hide Inv, Enabled, Apply, Recovered, Act, HalfRecovered;
      ghost var s := View();
      var due := Overdue(now);
      ScanIsComplete(cfg, s, due);
      RecoverBegins(cfg, s, due, now);
      for i := 0 to |due|
        invariant Valid() && clock == now
        invariant HalfRecovered(cfg, s, View(), due[..i], now)
      {
        ghost var t := View();
        OverdueStillThere(cfg, s, t, due, i, now);
        var reply := Change(due[i], Update.Recover, now);
        RecoverStep(cfg, s, t, due[i], now);
        RecoverProgress(cfg, s, t, View(), due, i, now);
      }
      assert due[..|due|] == due;
      RecoverDone(cfg, s, View(), due, now);
      NothingOverdue(cfg, s, View(), now);
    }

    /** `pending`: up to 100 results whose publish lease has run out. */
    method Pending(now: int) returns (due: seq<Identity>)
      requires Valid()
      ensures |due| <= SCAN_ROWS
      ensures forall i | 0 <= i < |due| :: due[i] in pending && pending[due[i]] <= now
      ensures |due| < SCAN_ROWS ==> forall id | id in pending && pending[id] <= now :: id in due
      ensures forall i | 0 <= i < |due| :: In(View(), due[i], Completed) || In(View(), due[i], Failed) || In(View(), due[i], Canceled)
    {
      hide Inv;
      due := [];
      var rest := pending.Keys;
      while rest != {} && |due| < SCAN_ROWS
        invariant rest <= pending.Keys && |due| <= SCAN_ROWS
        invariant forall i | 0 <= i < |due| :: due[i] in pending && pending[due[i]] <= now
        invariant forall id | id in pending && id !in rest && pending[id] <= now :: id in due
        decreases rest
      {
        var id :| id in rest;
        rest := rest - {id};
        if pending[id] <= now { due := due + [id]; }
      }
      PendingHaveEnded(cfg, View());
    }

    method ClaimResult(id: Identity, publisher: string, now: int) returns (r: Option<JobRecord>)
      requires Valid() && Enabled(cfg, View(), Do(Op.Change(id, Update.ClaimResult(publisher)), now))
      modifies this
      ensures Valid() && View() == Act(cfg, old(View()), Do(Op.Change(id, Update.ClaimResult(publisher)), now))
      ensures ClaimResultLaw(cfg, old(View()), View(), id, publisher, now, r)
    {
      hide Inv, Enabled, Act, PlanChange, ClaimResultLaw;
      ClaimResultObeys(cfg, View(), id, publisher, now);
      var reply := Change(id, Update.ClaimResult(publisher), now);
      r := if reply.Changed? then Some(reply.record) else None;
    }

    method Acknowledge(id: Identity, publisher: string, now: int)
      requires Valid() && Enabled(cfg, View(), Do(Op.Acknowledge(id, publisher), now))
      modifies this
      ensures Valid() && View() == Act(cfg, old(View()), Do(Op.Acknowledge(id, publisher), now))
      ensures AcknowledgeLaw(old(View()), View(), id, publisher)
    {
      hide Inv, Enabled;
      ActKeepsInv(cfg, View(), Do(Op.Acknowledge(id, publisher), now));
      if id !in records || records[id].publishOwner != Some(publisher) { return; }
      assert slots - {} == slots;
      Save(id, records[id].(published := true));
      pending := pending - {id};
    }

    // ---------- Photo staging

    /** The storage key each photo of the buffer is known by. */
    method KnownKeys(b: Buffer) returns (known: map<int, string>)
      requires BufferOk(b)
      ensures forall p | p in known :: Names(b, p)
      ensures forall n, p | n in b.batches && p in b.batches[n] :: p in known && known[p] == b.batches[n][p]
    {
      hide PhotoIds;
      known := map[];
      var rest: set<int> := b.batches.Keys;
      while rest != {}
        invariant rest <= b.batches.Keys
        invariant forall n, p | n in b.batches && n !in rest && p in b.batches[n] ::
                    p in known && known[p] == b.batches[n][p]
        invariant forall p | p in known :: Names(b, p)
        decreases rest
      {
        Inhabited(rest);
        var n :| n in rest;
        forall p | p in b.batches[n] ensures Names(b, p) {}
        known := known + b.batches[n];
        rest := rest - {n};
      }
    }

    /** Adds the photos one by one; false as soon as one is known under another storage key. */
    method AddPhotos(known: map<int, string>, photos: Batch) returns (ok: bool, all: map<int, string>)
      ensures ok <==> forall p | p in photos && p in known :: known[p] == photos[p]
      ensures ok ==> all == known + photos
    {
      all, ok := known, true;
      var rest: set<int> := photos.Keys;
      while rest != {}
        invariant rest <= photos.Keys
        invariant forall p | p in photos && p !in rest && p in known :: known[p] == photos[p]
        invariant all == known + (map p | p in photos && p !in rest :: photos[p])
        decreases rest
      {
        Inhabited(rest);
        var p :| p in rest;
        if p in all && all[p] != photos[p] { return false, all; }
        all := all[p := photos[p]];
        rest := rest - {p};
      }
      assert (map p | p in photos && p !in rest :: photos[p]) == photos;
    }

    /** The check against every batch already staged, and the number of photos with the new batch. */
    method Merge(buffer: Buffer, batch: int, photos: Batch) returns (ok: bool, size: nat)
      requires BufferOk(buffer) && batch !in buffer.batches
      ensures ok <==> !Conflicts(buffer, photos)
      ensures ok <==> forall n, p | n in buffer.batches && p in buffer.batches[n] && p in photos ::
                        buffer.batches[n][p] == photos[p]
      ensures ok ==> size == |PhotoIds(buffer.batches[batch := photos])| == |Together(buffer.batches, photos)|
    {
      hide BufferOk, PhotoIds, Conflicts, Together;
      NoConflict(buffer, photos);
      TogetherIs(buffer.batches, batch, photos);
      var known := KnownKeys(buffer);
      KnownIds(buffer, known);
      var all;
      ok, all := AddPhotos(known, photos);
      ConflictFree(buffer, photos, known);
      GrownIds(buffer, batch, photos, known);
      size := |all|;
    }

    /** Drops the queue entries whose buffer must have expired by now. */
    method TrimBatchQueue(before: int)
      modifies this`batchQueue
      ensures batchQueue == map e | e in old(batchQueue) && old(batchQueue)[e] > before :: old(batchQueue)[e]
    {
      batchQueue := map e | e in batchQueue && batchQueue[e] > before :: batchQueue[e];
    }

    method KeepBuffer(id: Identity, b: Buffer)
      modifies this`buffers, this`bufferTouched
      ensures View() == old(View()).(buffers := old(buffers)[id := LiveBuffer(b, clock + cfg.photosTtl)],
                                     bufferTouched := old(bufferTouched)[id := clock])
    {
      buffers := buffers[id := LiveBuffer(b, clock + cfg.photosTtl)];
      bufferTouched := bufferTouched[id := clock];
    }

    method QueueBatch(e: Entry, at: int)
      modifies this`batchQueue
      ensures View() == old(View()).(batchQueue := QueuedBatches(cfg, old(batchQueue), e, at))
    {
      batchQueue := batchQueue[e := at];
      TrimBatchQueue(at - cfg.photosTtl);
    }

    method WriteStaged(id: Identity, g: Staged)
      modifies this`buffers, this`bufferTouched, this`batchQueue
      ensures View() == StagedStore(cfg, old(View()), id, g)
    {
      hide QueuedBatches;
      KeepBuffer(id, g.buffer);
      QueueBatch(Entry(id, g.batch), g.at);
    }

    /** Everything `stage_photos` checks before it writes. */
    method DecideStaging(id: Identity, topic: string, batch: int, photos: Batch)
      returns (reply: Reply, grown: Buffer)
      requires Valid()
      ensures reply == StageAnswer(cfg, View(), id, topic, batch, photos)
      ensures reply.StagedBatch? ==> grown == Buffer(topic, BatchesOf(View(), id)[batch := photos])
    {
      hide Inv, PhotoIds, BufferOk, Conflicts, Together;
      var buffer := if id in buffers then buffers[id].content else Buffer(topic, map[]);
      grown := buffer;
      if id in records || id in ignored { return Closed, grown; }
      if buffer.topic != topic { return Invalid, grown; }
      if batch in buffer.batches { return if buffer.batches[batch] != photos then Invalid else Duplicate, grown; }
      StagedBufferOk(cfg, View(), id, topic);
      var ok, size := Merge(buffer, batch, photos);
      if !ok { return Invalid, grown; }
      grown := buffer.(batches := buffer.batches[batch := photos]);
      if size > MAX_STAGED || |buffer.batches| >= MAX_STAGED { return Invalid, grown; }
      if cfg.bufferBytes(grown) > PHOTOS_READY_MAX_BYTES { return Invalid, grown; }
      return StagedBatch, grown;
    }

    method StagePhotos(id: Identity, topic: string, batch: int, photos: Batch, now: int) returns (reply: Reply)
      requires Valid() && Enabled(cfg, View(), Do(Op.Stage(id, topic, batch, photos), now))
      modifies this
      ensures Valid() && View() == Act(cfg, old(View()), Do(Op.Stage(id, topic, batch, photos), now))
      ensures StageLaw(cfg, old(View()), View(), id, topic, batch, photos, now, reply)
    {
      hide Inv, Enabled, PlanStage, Apply, StagedStore, StageLaw, StageAnswer;
      ghost var s := View();
      StageObeys(cfg, s, id, topic, batch, photos, now);
      ActKeepsInv(cfg, s, Do(Op.Stage(id, topic, batch, photos), now));
      var grown;
      reply, grown := DecideStaging(id, topic, batch, photos);
      StageReplies(cfg, s, id, topic, batch, photos, now);
      if reply.StagedBatch? {
        StageInSteps(cfg, s, id, Staged(grown, batch, now));
        WriteStaged(id, Staged(grown, batch, now));
      }
    }

    /** ZPOPMIN. */
    method PopFirst() returns (e: Entry)
      requires batchQueue != map[]
      modifies this`batchQueue
      ensures e in old(batchQueue) && batchQueue == old(batchQueue) - {e}
      ensures forall other | other in old(batchQueue) :: old(batchQueue)[e] <= old(batchQueue)[other]
    {
      e :| e in batchQueue;
      var rest := batchQueue.Keys - {e};
      while rest != {}
        invariant rest <= batchQueue.Keys && e in batchQueue && batchQueue == old(batchQueue)
        invariant forall other | other in batchQueue && other !in rest :: batchQueue[e] <= batchQueue[other]
        decreases rest
      {
        var other :| other in rest;
        if batchQueue[other] < batchQueue[e] { e := other; }
        rest := rest - {other};
      }
      batchQueue := batchQueue - {e};
    }

    /**
     `claim_batch`: the earliest queued batch whose buffer is live.  Everything popped on
     the way belonged to dead buffers, and the batch returned is one `photo_batch` finds.
     */
    method ClaimBatch() returns (claim: Option<Entry>)
      requires Valid()
      modifies this`batchQueue
      ensures Valid()
      ensures batchQueue.Keys <= old(batchQueue).Keys
      ensures claim.Some? ==>
                var e := claim.value;
                && e in old(batchQueue) && e !in batchQueue
                && e.id in buffers && e.batch in buffers[e.id].content.batches
                && (forall other | other in old(batchQueue) && other.id in buffers ::
                      old(batchQueue)[e] <= old(batchQueue)[other])
      ensures claim.None? ==> batchQueue == map[] && forall e | e in old(batchQueue) :: e.id !in buffers
      ensures forall e | e in old(batchQueue) && e.id in buffers && claim != Some(e) :: e in batchQueue
    {
      hide Inv;
      claim := None;
      while batchQueue != map[]
        invariant Valid() && claim.None?
        invariant batchQueue.Keys <= old(batchQueue).Keys
        invariant forall e | e in batchQueue :: batchQueue[e] == old(batchQueue)[e]
        invariant forall e | e in old(batchQueue) && e.id in buffers :: e in batchQueue
        decreases batchQueue.Keys
      {
        ghost var s := View();
        var e := PopFirst();
        PopKeepsInv(cfg, s, e);
        if e.id in buffers {
          QueuedIsStaged(cfg, s, e);
          return Some(e);
        }
      }
    }
  }

  ghost function UnindexedStore(s: Store, id: Identity): Store {
    s.(processQueue := if id.kind.Process? then s.processQueue - {id} else s.processQueue,
       storyQueue := if id.kind.Story? then s.storyQueue - {id} else s.storyQueue,
       running := s.running - {id},
       slots := s.slots - SlotsHeldBy(s.slots, id.kind, id))
  }

  ghost function RequeuedStore(s: Store, id: Identity, score: nat): Store {
    s.(processQueue := if id.kind.Process? then s.processQueue[id := score] else s.processQueue,
       storyQueue := if id.kind.Story? then s.storyQueue[id := score] else s.storyQueue,
       running := s.running - {id},
       slots := s.slots - SlotsHeldBy(s.slots, id.kind, id))
  }

  lemma ReturnedInSteps(s: Store, r: JobRecord, score: nat)
    ensures RequeuedStore(s.(records := s.records[r.id := r], jobTouched := s.jobTouched[r.id := s.clock]), r.id, score)
            == ReturnedStore(s, r, score)
  {
    hide SlotsHeldBy;
  }

  lemma EndedInSteps(s: Store, before: JobRecord, r: JobRecord, now: int)
    ensures var saved := s.(records := s.records[r.id := r], jobTouched := s.jobTouched[r.id := s.clock]);
      var counted := saved.(metrics :=
        if before.status.Terminal() then saved.metrics else ObserveEnd(saved.metrics, r, now));
      var cleared := UnindexedStore(counted, r.id);
      cleared.(pending := if r.published then cleared.pending
                          else cleared.pending[r.id := Max(now, r.publishUntil)])
      == EndedStore(s, before, r, now)
  {
    hide ObserveEnd, SlotsHeldBy;
  }

  /** What the body of `Change` needs to know about the record it saves. */
  lemma RecordsFit(cfg: Config, s: Store, id: Identity, u: Update, now: int)
    requires Inv(cfg, s) && id in s.records && Updated(cfg, u, s.records[id], now).Save?
    ensures var r := Updated(cfg, u, s.records[id], now).record;
      && r.id == id
      && (r.status.Queued? ==> u.ReturnUnstarted?)
      && (r.status.Processing? ==> r.heartbeatAt.Some? && r.startedAt.Some?)
    ensures forall key | key in s.metrics :: |s.metrics[key].buckets| == |BOUNDS| + 1
  {
    hide QueueOk, OrderOk, SlotsOk, RunningOk, PendingOk, LatestOk, BuffersOk, BatchQueueOk, ClaimsOk, TimesOk,
      Updated;
    UpdatedIsLegal(cfg, u, s.records[id], now);
  }

  lemma Inhabited(s: set<int>)
    ensures s == {} || exists x :: x in s
  {
    if forall x :: x !in s { assert s == {}; }
  }

  // ---------- register

  lemma HistogramsFit(cfg: Config, s: Store)
    requires Inv(cfg, s)
    ensures forall key | key in s.metrics :: |s.metrics[key].buckets| == |BOUNDS| + 1
  {
    hide RecordsOk, QueueOk, OrderOk, SlotsOk, RunningOk, PendingOk, LatestOk, BuffersOk, BatchQueueOk, ClaimsOk,
      TimesOk;
  }

  // ---------- claim, in steps

  lemma NothingStale(cfg: Config, s: Store, kind: Kind)
    requires Inv(cfg, s)
    ensures StaleSlots(s, kind) == {}
  {
    hide RecordsOk, QueueOk, OrderOk, SlotsOk, RunningOk, PendingOk, LatestOk, BuffersOk, BatchQueueOk, MetricsOk,
      ClaimsOk, TimesOk;
    NoStaleSlots(cfg, s, kind);
  }

  /** Scores are distinct, so the member with the least score is the one `Plan` starts. */
  lemma QueueHead(cfg: Config, s: Store, kind: Kind, id: Identity)
    requires Inv(cfg, s) && s.Queue(kind) != map[] && IsHead(s.Queue(kind), id)
    ensures id == Head(s.Queue(kind)) && In(s, id, Queued) && s.records[id].id == id && id.kind == kind
  {
    hide RecordsOk, QueueOk, OrderOk, SlotsOk, RunningOk, PendingOk, LatestOk, BuffersOk, BatchQueueOk, MetricsOk,
      ClaimsOk, TimesOk;
    HeadIsQueued(s, kind);
    QueueScore(s, id, kind);
    QueueScore(s, Head(s.Queue(kind)), kind);
    DistinctOrder(s, id, Head(s.Queue(kind)));
    IsRecord(cfg, s, id);
  }

  ghost function BegunStore(cfg: Config, s: Store, r: JobRecord, index: nat, score: nat, token: Token, now: int): Store {
    s.(records := s.records[r.id := r], jobTouched := s.jobTouched[r.id := s.clock],
       processQueue := if r.id.kind.Process? then s.processQueue - {r.id} else s.processQueue,
       storyQueue := if r.id.kind.Story? then s.storyQueue - {r.id} else s.storyQueue,
       slots := s.slots[Slot(r.id.kind, index) := r.id],
       running := s.running[r.id := now + Min(cfg.lease, cfg.Timeout(r.id.kind))],
       claimed := s.claimed[token := ClaimNote(r.id, score)])
  }

  ghost function OccupiedStore(s: Store, id: Identity, index: nat, deadline: int): Store {
    s.(processQueue := if id.kind.Process? then s.processQueue - {id} else s.processQueue,
       storyQueue := if id.kind.Story? then s.storyQueue - {id} else s.storyQueue,
       slots := s.slots[Slot(id.kind, index) := id],
       running := s.running[id := deadline])
  }

  lemma BegunInSteps(cfg: Config, s: Store, r: JobRecord, index: nat, score: nat, token: Token, now: int)
    ensures var saved := s.(records := s.records[r.id := r], jobTouched := s.jobTouched[r.id := s.clock]);
      var moved := OccupiedStore(saved, r.id, index, now + Min(cfg.lease, cfg.Timeout(r.id.kind)));
      moved.(claimed := moved.claimed[token := ClaimNote(r.id, score)])
      == BegunStore(cfg, s, r, index, score, token, now)
  {}

  lemma StartInSteps(cfg: Config, s: Store, r: JobRecord, index: nat, score: nat, token: Token, now: int)
    requires r.owner == Some(token)
    ensures BegunStore(cfg, s, r, index, score, token, now) == Apply(cfg, StartDelta(cfg, r, index, score, now), s)
  {
    assert s.slots - {} == s.slots;
  }

  // ---------- finish, cancel and recover

  lemma TimeIsPast(cfg: Config, s: Store, op: Op, now: int)
    requires Enabled(cfg, s, Do(op, now))
    ensures 0 <= now
  {}

  lemma LatestExists(cfg: Config, s: Store, trip: TripKey)
    requires Inv(cfg, s) && trip in s.latest
    ensures s.latest[trip] in s.records
  {
    hide RecordsOk, QueueOk, OrderOk, SlotsOk, RunningOk, PendingOk, BuffersOk, BatchQueueOk, MetricsOk, ClaimsOk,
      TimesOk;
  }

  /** What `recover` owes each record: failed for the right reason if it was overdue, untouched if not. */
  ghost predicate Recovered(cfg: Config, s: Store, t: Store, id: Identity, now: int)
    requires id in s.records
  {
    && id in t.records
    && if IsOverdue(cfg, s, id, now) then
         && t.records[id].status == Failed
         && EndedFrom(cfg, s.records[id], t.records[id], Interrupted(cfg, s, id, now), s.records[id].cancelRequested)
       else t.records[id] == s.records[id]
  }

  /** Everything in the outbox belongs to a job that has ended. */
  lemma PendingHaveEnded(cfg: Config, s: Store)
    requires Inv(cfg, s)
    ensures forall id | id in s.pending :: In(s, id, Completed) || In(s, id, Failed) || In(s, id, Canceled)
  {
    hide RecordsOk, QueueOk, OrderOk, SlotsOk, RunningOk, LatestOk, BuffersOk, BatchQueueOk, MetricsOk, ClaimsOk,
      TimesOk;
    forall id | id in s.pending ensures In(s, id, Completed) || In(s, id, Failed) || In(s, id, Canceled) {
      assert Unpublished(s, id);
    }
  }

  /** The 100-row scan is never cut short. */
  lemma ScanIsComplete(cfg: Config, s: Store, due: seq<Identity>)
    requires cfg.Valid() && Inv(cfg, s)
    requires forall i | 0 <= i < |due| :: due[i] in s.running
    requires forall i, j | 0 <= i < j < |due| :: due[i] != due[j]
    ensures |due| < SCAN_ROWS
  {
    hide Inv;
    RunningBound(cfg, s);
    DistinctElements(due);
    SubsetSize(Elements(due), s.running.Keys);
  }

  lemma OverdueRecord(cfg: Config, s: Store, id: Identity)
    requires Inv(cfg, s)
    ensures id in s.running <==> In(s, id, Processing)
    ensures id in s.running ==>
              && s.records[id].id == id && s.records[id].heartbeatAt.Some? && s.records[id].startedAt.Some?
              && s.running[id] == Deadline(cfg, s.records[id])
  {
    hide QueueOk, OrderOk, SlotsOk, PendingOk, LatestOk, BuffersOk, BatchQueueOk, MetricsOk, ClaimsOk, TimesOk, Wf;
  }

  lemma ClockKnown(cfg: Config, s: Store)
    requires Inv(cfg, s)
    ensures 0 <= s.clock && forall id | id in s.jobTouched :: s.jobTouched[id] <= s.clock
  {
    hide RecordsOk, QueueOk, OrderOk, SlotsOk, RunningOk, PendingOk, LatestOk, BuffersOk, BatchQueueOk, MetricsOk,
      ClaimsOk;
  }

  /** The loop of `recover` after the records in `done`. */
  ghost predicate HalfRecovered(cfg: Config, s: Store, t: Store, done: seq<Identity>, now: int) {
    && t.records.Keys == s.records.Keys
    && (forall id | id in s.records && id !in done :: t.records[id] == s.records[id])
    && (forall id | id in s.records && id in done :: Recovered(cfg, s, t, id, now))
  }

  lemma RecoverBegins(cfg: Config, s: Store, due: seq<Identity>, now: int)
    ensures HalfRecovered(cfg, s, s, due[..0], now)
  {}

  lemma OverdueStillThere(cfg: Config, s: Store, t: Store, due: seq<Identity>, i: nat, now: int)
    requires Inv(cfg, s) && Inv(cfg, t) && t.clock == now && i < |due|
    requires forall k | 0 <= k < |due| :: due[k] in s.running && s.running[due[k]] <= now
    requires forall j, k | 0 <= j < k < |due| :: due[j] != due[k]
    requires HalfRecovered(cfg, s, t, due[..i], now)
    ensures due[i] in s.records && due[i] in t.records && t.records[due[i]] == s.records[due[i]]
    ensures IsOverdue(cfg, s, due[i], now) && 0 <= now
    ensures Enabled(cfg, t, Do(Op.Change(due[i], Update.Recover), now))
  {
    hide Inv, Recovered;
    OverdueRecord(cfg, s, due[i]);
    ScoreTells(cfg, s, due[i], now);
    ClockKnown(cfg, t);
    assert due[i] !in due[..i];
  }

  lemma RecoverProgress(cfg: Config, s: Store, t: Store, u: Store, due: seq<Identity>, i: nat, now: int)
    requires i < |due| && due[i] in s.records
    requires HalfRecovered(cfg, s, t, due[..i], now) && Recovered(cfg, s, u, due[i], now)
    requires u.records.Keys == t.records.Keys
    requires forall other | other in t.records && other != due[i] :: u.records[other] == t.records[other]
    ensures HalfRecovered(cfg, s, u, due[..i + 1], now)
  {
    hide EndedFrom;
    assert due[..i + 1] == due[..i] + [due[i]];
    forall id | id in s.records && id in due[..i + 1] ensures Recovered(cfg, s, u, id, now) {
      if id != due[i] { assert Recovered(cfg, s, t, id, now); }
    }
  }

  lemma RecoverDone(cfg: Config, s: Store, t: Store, due: seq<Identity>, now: int)
    requires HalfRecovered(cfg, s, t, due, now)
    requires Inv(cfg, s) && forall id | id in s.running && s.running[id] <= now :: id in due
    ensures t.records.Keys == s.records.Keys
    ensures forall id | id in s.records :: Recovered(cfg, s, t, id, now)
  {
    hide EndedFrom, Inv;
    forall id | id in s.records ensures Recovered(cfg, s, t, id, now) { ScoreTells(cfg, s, id, now); }
  }

  /** The scores of `running` tell exactly which records are overdue. */
  lemma ScoreTells(cfg: Config, s: Store, id: Identity, now: int)
    requires Inv(cfg, s)
    ensures IsOverdue(cfg, s, id, now) <==> id in s.running && s.running[id] <= now
  {
    hide Inv;
    OverdueRecord(cfg, s, id);
  }

  lemma RecoverStep(cfg: Config, s: Store, t: Store, id: Identity, now: int)
    requires cfg.Valid() && Inv(cfg, s) && Inv(cfg, t) && 0 <= now
    requires id in s.records && id in t.records && t.records[id] == s.records[id] && IsOverdue(cfg, s, id, now)
    ensures var u := Act(cfg, t, Do(Op.Change(id, Update.Recover), now));
      && Recovered(cfg, s, u, id, now)
      && u.clock == t.clock && u.records.Keys == t.records.Keys
      && (forall other | other in t.records && other != id :: u.records[other] == t.records[other])
  {
    hide Inv, Act;
    RecoverObeys(cfg, t, id, now);
  }

  lemma NothingOverdue(cfg: Config, s: Store, t: Store, now: int)
    requires Inv(cfg, s) && Inv(cfg, t) && t.records.Keys == s.records.Keys
    requires forall id | id in s.records :: Recovered(cfg, s, t, id, now)
    ensures forall id | id in t.running :: now < t.running[id]
  {
    hide Inv, EndedFrom;
    forall id | id in t.running ensures now < t.running[id] {
      OverdueRecord(cfg, t, id);
      ScoreTells(cfg, t, id, now);
      assert Recovered(cfg, s, t, id, now);
    }
  }

  // ---------- photo staging

  lemma StagedBufferOk(cfg: Config, s: Store, id: Identity, topic: string)
    requires Inv(cfg, s)
    ensures BufferOk(BufferOf(s, id, topic))
  {
    hide RecordsOk, QueueOk, OrderOk, SlotsOk, RunningOk, PendingOk, LatestOk, BatchQueueOk, MetricsOk, ClaimsOk,
      TimesOk;
    if id !in s.buffers { assert PhotoIds(map[]) == {}; }
  }

  ghost predicate Names(b: Buffer, p: int) {
    exists n :: n in b.batches && p in b.batches[n]
  }

  lemma KnownIds(b: Buffer, known: map<int, string>)
    requires forall p | p in known :: Names(b, p)
    requires forall n, p | n in b.batches && p in b.batches[n] :: p in known
    ensures known.Keys == PhotoIds(b.batches)
  {
    forall p ensures p in known <==> p in PhotoIds(b.batches) {
      if p in known {
        assert Names(b, p);
        var n :| n in b.batches && p in b.batches[n];
      }
    }
  }

  lemma ConflictFree(b: Buffer, photos: Batch, known: map<int, string>)
    requires known.Keys == PhotoIds(b.batches)
    requires forall n, p | n in b.batches && p in b.batches[n] :: p in known && known[p] == b.batches[n][p]
    ensures !Conflicts(b, photos) <==> forall p | p in photos && p in known :: known[p] == photos[p]
  {
    if !Conflicts(b, photos) {
      forall p | p in photos && p in known ensures known[p] == photos[p] {
        assert p in PhotoIds(b.batches);
        var n :| n in b.batches && p in b.batches[n];
      }
    }
  }

  lemma NoConflict(b: Buffer, photos: Batch)
    ensures !Conflicts(b, photos) <==>
            forall n, p | n in b.batches && p in b.batches[n] && p in photos :: b.batches[n][p] == photos[p]
  {}

  lemma GrownIds(b: Buffer, batch: int, photos: Batch, known: map<int, string>)
    requires known.Keys == PhotoIds(b.batches) && batch !in b.batches
    ensures (known + photos).Keys == PhotoIds(b.batches[batch := photos])
  {
    var grown := b.batches[batch := photos];
    forall p | p in photos ensures p in PhotoIds(grown) { assert p in grown[batch]; }
    forall p | p in known ensures p in PhotoIds(grown) {
      var n :| n in b.batches && p in b.batches[n];
      assert p in grown[n];
    }
  }

  ghost function QueuedBatches(cfg: Config, queue: map<Entry, int>, e: Entry, at: int): map<Entry, int> {
    var added := queue[e := at];
    map x | x in added && added[x] > at - cfg.photosTtl :: added[x]
  }

  ghost function StagedStore(cfg: Config, s: Store, id: Identity, g: Staged): Store {
    s.(buffers := s.buffers[id := LiveBuffer(g.buffer, s.clock + cfg.photosTtl)],
       bufferTouched := s.bufferTouched[id := s.clock],
       batchQueue := QueuedBatches(cfg, s.batchQueue, Entry(id, g.batch), g.at))
  }

  lemma StageInSteps(cfg: Config, s: Store, id: Identity, g: Staged)
    ensures StagedStore(cfg, s, id, g) == Apply(cfg, NoCommands(id).(staged := Some(g)), s)
  {
    assert s.slots - {} == s.slots;
  }

  lemma QueuedIsStaged(cfg: Config, s: Store, e: Entry)
    requires Inv(cfg, s) && e in s.batchQueue && e.id in s.buffers
    ensures e.batch in s.buffers[e.id].content.batches
  {
    hide RecordsOk, QueueOk, OrderOk, SlotsOk, RunningOk, PendingOk, LatestOk, BuffersOk, BatchQueueOk, MetricsOk,
      ClaimsOk, TimesOk;
    OldEntry(cfg, s, e);
  }
}
