/**
 The WATCH/MULTI/EXEC protocol itself.  Any number of clients watch keys, read them one
 by one at different moments, ask for the time, and finally send a `Delta` computed from
 what they have seen; Redis applies it only if no watched key was modified meanwhile.
 Every such interleaving is a run of the atomic actions of `JobInvariant`.
 */
module Optimistic {
  import opened Wrappers
  import opened JobModel
  import opened JobInvariant
  import opened JobPreservation
  import opened JobRuns

  /** The keys transactions watch. `running`, `pending`, the batch queue and the metrics are only written. */
  datatype Key =
    | JobKey(id: Identity)
    | IgnoredKey(id: Identity)
    | LatestKey(trip: TripKey)
    | SequenceKey
    | BufferKey(id: Identity)
    | QueueKey(kind: Kind)
    | SlotKey(slot: Slot)

  /** Both stores hold the same value at this key. */
  predicate Agree(a: Store, b: Store, k: Key) {
    match k
    case JobKey(id) => Get(a.records, id) == Get(b.records, id)
    case IgnoredKey(id) => id in a.ignored <==> id in b.ignored
    case LatestKey(trip) => Get(a.latest, trip) == Get(b.latest, trip)
    case SequenceKey => a.sequence == b.sequence
    case BufferKey(id) => Get(a.buffers, id) == Get(b.buffers, id)
    case QueueKey(kind) => a.Queue(kind) == b.Queue(kind)
    case SlotKey(slot) => Get(a.slots, slot) == Get(b.slots, slot)
  }

  /** Redis signals the key as modified between these two moments. */
  predicate Modified(a: Store, b: Store, k: Key) {
    || !Agree(a, b, k)
    || (k.JobKey? && Get(a.jobTouched, k.id) != Get(b.jobTouched, k.id))
    || (k.BufferKey? && Get(a.bufferTouched, k.id) != Get(b.bufferTouched, k.id))
  }

  function SlotKeys(kind: Kind): set<Key> {
    set i: nat | i < SlotCount(kind) :: SlotKey(Slot(kind, i))
  }

  function OccupantKeys(s: Store, kind: Kind): set<Key> {
    set i: nat | i < SlotCount(kind) && Slot(kind, i) in s.slots :: JobKey(s.slots[Slot(kind, i)])
  }

  /** The keys each transaction has watched by the time it sends EXEC. */
  ghost function Watched(cfg: Config, op: Op, s: Store): set<Key> {
    match op
    case Register(q) =>
      {JobKey(q.id), IgnoredKey(q.id), LatestKey(TripOf(q.id)), SequenceKey, BufferKey(q.id)}
      + (if TripOf(q.id) in s.latest then {JobKey(s.latest[TripOf(q.id)])} else {})
    case Claim(kind, _) =>
      {QueueKey(kind)} + SlotKeys(kind) + OccupantKeys(s, kind)
      + (if s.Queue(kind) != map[] then {JobKey(Head(s.Queue(kind)))} else {})
    case Change(id, _) => {JobKey(id)} + SlotKeys(if id in s.records then s.records[id].id.kind else id.kind)
    case Stage(id, _, _, _) => {BufferKey(id), JobKey(id), IgnoredKey(id)}
    case Acknowledge(id, _) => {JobKey(id)}
  }

  /** The keys each transaction has read before it asks for the time. */
  ghost function Anchor(op: Op, s: Store): set<Key> {
    match op
    case Register(q) => {JobKey(q.id)}
    case Claim(kind, _) => if s.Queue(kind) != map[] then {JobKey(Head(s.Queue(kind)))} else {}
    case Change(id, _) => {JobKey(id)}
    case Stage(id, _, _, _) => {BufferKey(id)}
    case Acknowledge(_, _) => {}
  }

  // ---------- Every value a transaction branches on comes from a watched key

  ghost predicate AgreeOn(a: Store, b: Store, keys: set<Key>) {
    forall k | k in keys :: Agree(a, b, k)
  }

  lemma SlotsAgree(a: Store, b: Store, kind: Kind)
    requires AgreeOn(a, b, SlotKeys(kind))
    ensures forall i: nat | i < SlotCount(kind) :: Get(a.slots, Slot(kind, i)) == Get(b.slots, Slot(kind, i))
  {
    forall i: nat | i < SlotCount(kind) ensures Get(a.slots, Slot(kind, i)) == Get(b.slots, Slot(kind, i)) {
      assert SlotKey(Slot(kind, i)) in SlotKeys(kind);
    }
  }

  lemma FirstFreeAgrees(a: Store, b: Store, kind: Kind, i: nat)
    requires i <= SlotCount(kind)
    requires forall j: nat | j < SlotCount(kind) :: Get(a.slots, Slot(kind, j)) == Get(b.slots, Slot(kind, j))
    ensures FirstFree(a, kind, i) == FirstFree(b, kind, i)
    decreases SlotCount(kind) - i
  {
    if i < SlotCount(kind) {
      assert Get(a.slots, Slot(kind, i)) == Get(b.slots, Slot(kind, i));
      FirstFreeAgrees(a, b, kind, i + 1);
    }
  }

  lemma HeldAgrees(a: Store, b: Store, kind: Kind, id: Identity)
    requires forall i: nat | i < SlotCount(kind) :: Get(a.slots, Slot(kind, i)) == Get(b.slots, Slot(kind, i))
    ensures SlotsHeldBy(a.slots, kind, id) == SlotsHeldBy(b.slots, kind, id)
    ensures Occupied(a, kind) == Occupied(b, kind)
  {
    forall i: nat | i < SlotCount(kind)
      ensures Slot(kind, i) in a.slots <==> Slot(kind, i) in b.slots
      ensures Slot(kind, i) in a.slots ==> a.slots[Slot(kind, i)] == b.slots[Slot(kind, i)]
    {
      assert Get(a.slots, Slot(kind, i)) == Get(b.slots, Slot(kind, i));
    }
  }

  predicate Stale(s: Store, kind: Kind, i: nat) {
    Slot(kind, i) in s.slots && s.slots[Slot(kind, i)] in s.records
    && s.records[s.slots[Slot(kind, i)]].status.Terminal()
  }

  lemma StaleAgrees(a: Store, b: Store, kind: Kind)
    requires AgreeOn(a, b, OccupantKeys(a, kind))
    requires forall i: nat | i < SlotCount(kind) :: Get(a.slots, Slot(kind, i)) == Get(b.slots, Slot(kind, i))
    ensures StaleSlots(a, kind) == StaleSlots(b, kind)
  {
    forall i: nat | i < SlotCount(kind) ensures Stale(a, kind, i) <==> Stale(b, kind, i) {
      assert Get(a.slots, Slot(kind, i)) == Get(b.slots, Slot(kind, i));
      if Slot(kind, i) in a.slots {
        assert JobKey(a.slots[Slot(kind, i)]) in OccupantKeys(a, kind);
        assert Agree(a, b, JobKey(a.slots[Slot(kind, i)]));
      }
    }
    assert StaleSlots(a, kind) == set i: nat | i < SlotCount(kind) && Stale(a, kind, i) :: Slot(kind, i);
    assert StaleSlots(b, kind) == set i: nat | i < SlotCount(kind) && Stale(b, kind, i) :: Slot(kind, i);
  }

  /** Two stores that agree on the watched keys lead to the same reply and the same commands. */
  lemma Footprint(cfg: Config, op: Op, now: int, a: Store, b: Store)
    requires AgreeOn(a, b, Watched(cfg, op, a))
    ensures Plan(cfg, op, now, a) == Plan(cfg, op, now, b)
    ensures Anchor(op, a) == Anchor(op, b)
  {
    hide Updated, NewRecord, PlanRegister, PlanClaim, PlanChange, PlanStage, AgreeOn;
    match op
    case Register(q) => RegisterFootprint(cfg, q, now, a, b);
    case Claim(kind, token) => ClaimFootprint(cfg, kind, token, now, a, b);
    case Change(id, u) => ChangeFootprint(cfg, id, u, now, a, b);
    case Stage(id, topic, batch, photos) => StageFootprint(cfg, id, topic, batch, photos, now, a, b);
    case Acknowledge(id, publisher) => AcknowledgeFootprint(cfg, id, publisher, a, b);
  }

  lemma AcknowledgeFootprint(cfg: Config, id: Identity, publisher: string, a: Store, b: Store)
    requires AgreeOn(a, b, Watched(cfg, Acknowledge(id, publisher), a))
    ensures PlanAcknowledge(id, publisher, a) == PlanAcknowledge(id, publisher, b)
  {
    assert Agree(a, b, JobKey(id));
  }

  lemma StageFootprint(cfg: Config, id: Identity, topic: string, batch: int, photos: Batch, now: int, a: Store, b: Store)
    requires AgreeOn(a, b, Watched(cfg, Stage(id, topic, batch, photos), a))
    ensures PlanStage(cfg, id, topic, batch, photos, now, a) == PlanStage(cfg, id, topic, batch, photos, now, b)
  {
    hide Conflicts, PhotoIds;
    assert Agree(a, b, BufferKey(id)) && Agree(a, b, JobKey(id)) && Agree(a, b, IgnoredKey(id));
  }

  lemma RegisterFootprint(cfg: Config, q: Request, now: int, a: Store, b: Store)
    requires AgreeOn(a, b, Watched(cfg, Register(q), a))
    ensures PlanRegister(cfg, q, now, a) == PlanRegister(cfg, q, now, b)
  {
    hide NewRecord;
    var trip := TripOf(q.id);
    assert Agree(a, b, JobKey(q.id)) && Agree(a, b, IgnoredKey(q.id)) && Agree(a, b, BufferKey(q.id));
    assert Agree(a, b, LatestKey(trip)) && Agree(a, b, SequenceKey);
    if trip in a.latest { assert Agree(a, b, JobKey(a.latest[trip])); }
    assert StagedNumbers(a, q.id) == StagedNumbers(b, q.id);
  }

  lemma ClaimFootprint(cfg: Config, kind: Kind, token: Token, now: int, a: Store, b: Store)
    requires AgreeOn(a, b, Watched(cfg, Claim(kind, token), a))
    ensures PlanClaim(cfg, kind, token, now, a) == PlanClaim(cfg, kind, token, now, b)
    ensures a.Queue(kind) == b.Queue(kind)
  {
    hide FirstFree, StaleSlots, Occupied, StartDelta;
    assert Agree(a, b, QueueKey(kind));
    SlotsAgree(a, b, kind);
    FirstFreeAgrees(a, b, kind, 0);
    HeldAgrees(a, b, kind, Identity(kind, 0, ""));
    StaleAgrees(a, b, kind);
    if a.Queue(kind) != map[] { assert Agree(a, b, JobKey(Head(a.Queue(kind)))); }
  }

  lemma ChangeFootprint(cfg: Config, id: Identity, u: Update, now: int, a: Store, b: Store)
    requires AgreeOn(a, b, Watched(cfg, Change(id, u), a))
    ensures PlanChange(cfg, id, u, now, a) == PlanChange(cfg, id, u, now, b)
  {
    hide SlotsHeldBy;
    assert Agree(a, b, JobKey(id));
    if id in a.records {
      var r := a.records[id];
      SlotsAgree(a, b, r.id.kind);
      HeldAgrees(a, b, r.id.kind, r.id);
      if Updated(cfg, u, r, now).Save? { UpdatedIdentity(cfg, u, r, now); }
    }
  }

  lemma UpdatedIdentity(cfg: Config, u: Update, r: JobRecord, now: int)
    requires Updated(cfg, u, r, now).Save?
    ensures Updated(cfg, u, r, now).record.id == r.id
  {}

  // ---------- Clients and interleavings

  /**
   One client's attempt.  `seen` holds what it has read so far; only the keys in `read`
   mean anything.  `anchored` are the keys it had read when it asked for the time.
   */
  datatype Session = Session(op: Op, seen: Store, watched: set<Key>, read: set<Key>,
                             anchored: set<Key>, now: Option<int>, dirty: bool)

  datatype World = World(store: Store, sessions: map<nat, Session>)

  datatype Step =
    | Begin(sid: nat, op: Op)
    | Watch(sid: nat, keys: set<Key>)
    | Read(sid: nat, key: Key, seen: Store)
    | AskTime(sid: nat)
    | Execute(sid: nat)
    | Discard(sid: nat)
    | Background(action: Action)

  ghost predicate Ready(cfg: Config, x: Session, s: Store) {
    && Watched(cfg, x.op, x.seen) <= x.read
    && Anchor(x.op, x.seen) <= x.anchored
    && x.now.Some?
    && CallerOk(s, x.op)
  }

  ghost predicate Allowed(cfg: Config, w: World, step: Step) {
    match step
    case Begin(sid, _) => sid !in w.sessions
    case Watch(sid, _) => sid in w.sessions
    case Read(sid, key, seen) =>
      && sid in w.sessions && key in w.sessions[sid].watched && key !in w.sessions[sid].read
      && Agree(seen, w.store, key)
      && AgreeOn(seen, w.sessions[sid].seen, w.sessions[sid].read)
    case AskTime(sid) => sid in w.sessions && w.sessions[sid].now.None?
    case Execute(sid) => sid in w.sessions && Ready(cfg, w.sessions[sid], w.store)
    case Discard(sid) => sid in w.sessions
    case Background(a) => !a.Do? && Enabled(cfg, w.store, a)
  }

  /** EXEC runs the queued commands only when no watched key was modified. */
  ghost predicate Succeeds(cfg: Config, x: Session) {
    x.now.Some? && !x.dirty && Plan(cfg, x.op, x.now.value, x.seen).Exec?
  }

  ghost function Notified(x: Session, a: Store, b: Store): Session {
    x.(dirty := x.dirty || exists k :: k in x.watched && Modified(a, b, k))
  }

  /** The store becomes `t`, and Redis marks every client watching a modified key. */
  ghost function Broadcast(w: World, t: Store): World {
    World(t, map sid | sid in w.sessions :: Notified(w.sessions[sid], w.store, t))
  }

  ghost function Move(cfg: Config, w: World, step: Step): World
    requires Allowed(cfg, w, step)
  {
    match step
    case Begin(sid, op) => w.(sessions := w.sessions[sid := Session(op, EMPTY_STORE, {}, {}, {}, None, false)])
    case Watch(sid, keys) =>
      w.(sessions := w.sessions[sid := w.sessions[sid].(watched := w.sessions[sid].watched + keys)])
    case Read(sid, key, seen) =>
      w.(sessions := w.sessions[sid := w.sessions[sid].(seen := seen, read := w.sessions[sid].read + {key})])
    case AskTime(sid) =>
      w.(sessions := w.sessions[sid := w.sessions[sid].(now := Some(w.store.clock), anchored := w.sessions[sid].read)])
    case Execute(sid) =>
      var x := w.sessions[sid];
      var rest := w.(sessions := w.sessions - {sid});
      if Succeeds(cfg, x) then
        Broadcast(rest, Apply(cfg, Plan(cfg, x.op, x.now.value, x.seen).delta, w.store))
      else rest
    case Discard(sid) => w.(sessions := w.sessions - {sid})
    case Background(a) => Broadcast(w, Act(cfg, w.store, a))
  }

  /** The time of the last write to the key, when it is one the clock is compared with. */
  predicate TouchedBy(s: Store, k: Key, now: int) {
    match k
    case JobKey(id) => id in s.jobTouched ==> s.jobTouched[id] <= now
    case BufferKey(id) => id in s.bufferTouched ==> s.bufferTouched[id] <= now
    case _ => true
  }

  ghost predicate SessionOk(s: Store, x: Session) {
    && x.read <= x.watched && x.anchored <= x.read
    && (x.now.Some? ==> 0 <= x.now.value <= s.clock)
    && (!x.dirty ==> AgreeOn(x.seen, s, x.read))
    && (!x.dirty && x.now.Some? ==> forall k | k in x.anchored :: TouchedBy(s, k, x.now.value))
  }

  ghost predicate WorldOk(cfg: Config, w: World) {
    && Inv(cfg, w.store)
    && (forall sid | sid in w.sessions :: SessionOk(w.store, w.sessions[sid]))
  }

  lemma NotifiedOk(x: Session, s: Store, t: Store)
    requires SessionOk(s, x) && s.clock <= t.clock
    ensures SessionOk(t, Notified(x, s, t))
  {
    hide Agree;
    var y := Notified(x, s, t);
    if !y.dirty {
      forall k | k in y.read ensures Agree(y.seen, t, k) {
        assert k in x.watched && !Modified(s, t, k);
        AgreeTransitive(x.seen, s, t, k);
      }
      if y.now.Some? {
        forall k | k in y.anchored ensures TouchedBy(t, k, y.now.value) {
          assert k in x.watched && !Modified(s, t, k);
          assert TouchedBy(s, k, y.now.value);
        }
      }
    }
  }

  lemma AgreeTransitive(a: Store, b: Store, c: Store, k: Key)
    requires Agree(a, b, k) && Agree(b, c, k)
    ensures Agree(a, c, k)
  {}

  lemma BroadcastOk(cfg: Config, w: World, t: Store)
    requires WorldOk(cfg, w) && Inv(cfg, t) && w.store.clock <= t.clock
    ensures WorldOk(cfg, Broadcast(w, t))
  {
    hide Inv, SessionOk;
    forall sid | sid in w.sessions ensures SessionOk(t, Notified(w.sessions[sid], w.store, t)) {
      NotifiedOk(w.sessions[sid], w.store, t);
    }
  }

  lemma ClocksKnown(cfg: Config, s: Store, k: Key)
    requires Inv(cfg, s)
    ensures 0 <= s.clock && TouchedBy(s, k, s.clock)
  {
    hide RecordsOk, QueueOk, OrderOk, SlotsOk, RunningOk, PendingOk, LatestOk, BuffersOk, MetricsOk, ClaimsOk;
  }

  /** An EXEC that goes through is the atomic action, at the store it finds. */
  lemma CommitIsAtomic(cfg: Config, s: Store, x: Session)
    requires SessionOk(s, x) && Ready(cfg, x, s) && Succeeds(cfg, x)
    ensures Plan(cfg, x.op, x.now.value, x.seen) == Plan(cfg, x.op, x.now.value, s)
    ensures Enabled(cfg, s, Do(x.op, x.now.value))
    ensures Act(cfg, s, Do(x.op, x.now.value)) == Apply(cfg, Plan(cfg, x.op, x.now.value, x.seen).delta, s)
  {
    hide Agree, CallerOk, Watched, Plan, Apply;
    Footprint(cfg, x.op, x.now.value, x.seen, s);
    AnchorTimely(cfg, s, x);
  }

  lemma AnchorTimely(cfg: Config, s: Store, x: Session)
    requires SessionOk(s, x) && x.now.Some? && !x.dirty
    requires Anchor(x.op, s) <= x.anchored
    ensures Timely(s, x.op, x.now.value)
  {
    hide Agree;
    forall k | k in Anchor(x.op, s) ensures TouchedBy(s, k, x.now.value) {}
    match x.op
    case Register(q) => assert JobKey(q.id) in Anchor(x.op, s);
    case Claim(kind, _) => if s.Queue(kind) != map[] { assert JobKey(Head(s.Queue(kind))) in Anchor(x.op, s); }
    case Change(id, _) => assert JobKey(id) in Anchor(x.op, s);
    case Stage(id, _, _, _) => assert BufferKey(id) in Anchor(x.op, s);
    case Acknowledge(_, _) =>
  }

  /** The atomic actions that take effect in one step of the interleaving. */
  ghost function Committed(cfg: Config, w: World, step: Step): seq<Action>
    requires Allowed(cfg, w, step)
  {
    match step
    case Execute(sid) =>
      var x := w.sessions[sid];
      if Succeeds(cfg, x) then [Do(x.op, x.now.value)] else []
    case Background(a) => [a]
    case _ => []
  }

  lemma MoveOk(cfg: Config, w: World, step: Step)
    requires cfg.Valid() && WorldOk(cfg, w) && Allowed(cfg, w, step)
    ensures WorldOk(cfg, Move(cfg, w, step))
    ensures Admissible(cfg, w.store, Committed(cfg, w, step))
    ensures Run(cfg, w.store, Committed(cfg, w, step)) == Move(cfg, w, step).store
  {
    hide Inv, SessionOk, Enabled, Act, Broadcast, Plan, Apply;
    match step
    case Execute(sid) =>
      var x := w.sessions[sid];
      var rest := w.(sessions := w.sessions - {sid});
      if Succeeds(cfg, x) {
        CommitIsAtomic(cfg, w.store, x);
        AtomicStep(cfg, rest, Do(x.op, x.now.value));
      }
    case Background(a) => AtomicStep(cfg, w, a);
    case Begin(sid, op) => FreshOk(w.store, op);
    case Watch(sid, keys) => WatchOk(w.store, w.sessions[sid], keys);
    case Read(sid, key, seen) => ReadOk(w.store, w.sessions[sid], key, seen);
    case AskTime(sid) => AskOk(cfg, w.store, w.sessions[sid]);
    case Discard(sid) =>
  }

  lemma AtomicStep(cfg: Config, w: World, a: Action)
    requires cfg.Valid() && WorldOk(cfg, w) && Enabled(cfg, w.store, a)
    ensures WorldOk(cfg, Broadcast(w, Act(cfg, w.store, a)))
    ensures Admissible(cfg, w.store, [a]) && Run(cfg, w.store, [a]) == Act(cfg, w.store, a)
    ensures Broadcast(w, Act(cfg, w.store, a)).store == Act(cfg, w.store, a)
  {
    hide Inv, Enabled, Act, SessionOk;
    ActKeepsInv(cfg, w.store, a);
    ClockMonotone(cfg, w.store, a);
    BroadcastOk(cfg, w, Act(cfg, w.store, a));
    assert [a][1..] == [];
  }

  lemma FreshOk(s: Store, op: Op)
    ensures SessionOk(s, Session(op, EMPTY_STORE, {}, {}, {}, None, false))
  {}

  lemma WatchOk(s: Store, x: Session, keys: set<Key>)
    requires SessionOk(s, x)
    ensures SessionOk(s, x.(watched := x.watched + keys))
  {
    hide Agree, TouchedBy;
  }

  lemma ReadOk(s: Store, x: Session, key: Key, seen: Store)
    requires SessionOk(s, x) && key in x.watched && Agree(seen, s, key) && AgreeOn(seen, x.seen, x.read)
    ensures SessionOk(s, x.(seen := seen, read := x.read + {key}))
  {
    hide Agree, TouchedBy;
    forall k | k in x.read && !x.dirty ensures Agree(seen, s, k) {
      AgreeTransitive(seen, x.seen, s, k);
    }
  }

  lemma AskOk(cfg: Config, s: Store, x: Session)
    requires Inv(cfg, s) && SessionOk(s, x) && x.now.None?
    ensures SessionOk(s, x.(now := Some(s.clock), anchored := x.read))
  {
    hide Inv, Agree, TouchedBy;
    ClocksKnown(cfg, s, SequenceKey);
    forall k | k in x.read ensures TouchedBy(s, k, s.clock) { ClocksKnown(cfg, s, k); }
  }

  // ---------- Whole interleavings

  ghost predicate Schedule(cfg: Config, w: World, steps: seq<Step>)
    decreases |steps|
  {
    steps == [] || (Allowed(cfg, w, steps[0]) && Schedule(cfg, Move(cfg, w, steps[0]), steps[1..]))
  }

  ghost function Played(cfg: Config, w: World, steps: seq<Step>): World
    requires Schedule(cfg, w, steps)
    decreases |steps|
  {
    if steps == [] then w else Played(cfg, Move(cfg, w, steps[0]), steps[1..])
  }

  /** The atomic run an interleaving amounts to: its successful EXECs, in commit order. */
  ghost function Linearized(cfg: Config, w: World, steps: seq<Step>): seq<Action>
    requires Schedule(cfg, w, steps)
    decreases |steps|
  {
    if steps == [] then []
    else Committed(cfg, w, steps[0]) + Linearized(cfg, Move(cfg, w, steps[0]), steps[1..])
  }

  /** Any interleaving of read-then-commit clients leaves the store where an atomic run leaves it. */
  lemma {:induction false} InterleavingsAreAtomic(cfg: Config, w: World, steps: seq<Step>)
    requires cfg.Valid() && WorldOk(cfg, w) && Schedule(cfg, w, steps)
    ensures Admissible(cfg, w.store, Linearized(cfg, w, steps))
    ensures Run(cfg, w.store, Linearized(cfg, w, steps)) == Played(cfg, w, steps).store
    ensures WorldOk(cfg, Played(cfg, w, steps))
    decreases |steps|
  {
    hide WorldOk, Allowed, Move, Committed;
    if steps != [] {
      var next := Move(cfg, w, steps[0]);
      MoveOk(cfg, w, steps[0]);
      InterleavingsAreAtomic(cfg, next, steps[1..]);
      RunSplit(cfg, w.store, Committed(cfg, w, steps[0]), Linearized(cfg, next, steps[1..]));
    }
  }

  const START := World(EMPTY_STORE, map[])

  /** From an empty Redis, every concurrent history is an atomic run, so every guarantee about runs holds of it. */
  lemma ConcurrentHistories(cfg: Config, steps: seq<Step>)
    requires cfg.Valid() && Schedule(cfg, START, steps)
    ensures Admissible(cfg, EMPTY_STORE, Linearized(cfg, START, steps))
    ensures Played(cfg, START, steps).store == Run(cfg, EMPTY_STORE, Linearized(cfg, START, steps))
    ensures Inv(cfg, Played(cfg, START, steps).store)
  {
    hide Inv;
    InitInv(cfg);
    InterleavingsAreAtomic(cfg, START, steps);
  }

  // ---------- And every atomic step is such an interleaving

  /** Reads of these keys in some order, all from the same store. */
  ghost predicate ReadsOf(steps: seq<Step>, sid: nat, keys: set<Key>, seen: Store)
    decreases |steps|
  {
    if steps == [] then keys == {}
    else
      && steps[0].Read? && steps[0].sid == sid && steps[0].seen == seen && steps[0].key in keys
      && ReadsOf(steps[1..], sid, keys - {steps[0].key}, seen)
  }

  lemma {:induction false} SomeReads(sid: nat, keys: set<Key>, seen: Store) returns (steps: seq<Step>)
    ensures ReadsOf(steps, sid, keys, seen)
    decreases keys
  {
    if keys == {} {
      steps := [];
    } else {
      var key :| key in keys;
      var rest := SomeReads(sid, keys - {key}, seen);
      steps := [Read(sid, key, seen)] + rest;
      assert steps[1..] == rest;
    }
  }

  /** While nobody writes, a client reads all the keys it watches. */
  lemma {:induction false} ReadsGo(cfg: Config, w: World, sid: nat, keys: set<Key>, steps: seq<Step>)
    requires ReadsOf(steps, sid, keys, w.store) && sid in w.sessions
    requires var x := w.sessions[sid]; keys <= x.watched && keys !! x.read && (x.read == {} || x.seen == w.store)
    ensures Schedule(cfg, w, steps)
    ensures var x, y := w.sessions[sid], Played(cfg, w, steps);
            y == World(w.store, w.sessions[sid := x.(seen := if keys == {} then x.seen else w.store, read := x.read + keys)])
    decreases |steps|
  {
    hide Agree;
    if steps == [] {
      var x := w.sessions[sid];
      assert x.read + keys == x.read && x == x.(seen := x.seen, read := x.read + keys);
      assert w.sessions[sid := x] == w.sessions;
    } else {
      forall k ensures Agree(w.store, w.store, k) { AgreeSelf(w.store, k); }
      var next := Move(cfg, w, steps[0]);
      ReadsGo(cfg, next, sid, keys - {steps[0].key}, steps[1..]);
      assert w.sessions[sid].read + {steps[0].key} + (keys - {steps[0].key}) == w.sessions[sid].read + keys;
    }
  }

  lemma AgreeSelf(s: Store, k: Key)
    ensures Agree(s, s, k)
  {}

  lemma {:induction false} ScheduleJoins(cfg: Config, w: World, a: seq<Step>, b: seq<Step>)
    requires Schedule(cfg, w, a) && Schedule(cfg, Played(cfg, w, a), b)
    ensures Schedule(cfg, w, a + b) && Played(cfg, w, a + b) == Played(cfg, Played(cfg, w, a), b)
    decreases |a|
  {
    hide Allowed, Move;
    if a == [] {
      assert a + b == b;
    } else {
      ScheduleJoins(cfg, Move(cfg, w, a[0]), a[1..], b);
      assert (a + b)[1..] == a[1..] + b;
    }
  }

  lemma OneStep(cfg: Config, w: World, step: Step)
    requires Allowed(cfg, w, step)
    ensures Schedule(cfg, w, [step]) && Played(cfg, w, [step]) == Move(cfg, w, step)
  {
    hide Allowed, Move;
    assert [step][1..] == [];
  }

  lemma AnchorIsWatched(cfg: Config, op: Op, s: Store)
    ensures Anchor(op, s) <= Watched(cfg, op, s) && Watched(cfg, op, s) != {}
  {
    match op
    case Register(q) => assert SequenceKey in Watched(cfg, op, s);
    case Claim(kind, _) => assert QueueKey(kind) in Watched(cfg, op, s);
    case Change(id, _) => assert JobKey(id) in Watched(cfg, op, s);
    case Stage(id, _, _, _) => assert BufferKey(id) in Watched(cfg, op, s);
    case Acknowledge(id, _) => assert JobKey(id) in Watched(cfg, op, s);
  }

  /** A client that nobody disturbs carries its operation out: EXEC is never refused without a reason. */
  lemma UndisturbedGoesThrough(cfg: Config, w: World, sid: nat, op: Op) returns (steps: seq<Step>)
    requires sid !in w.sessions && CallerOk(w.store, op)
    ensures Schedule(cfg, w, steps)
    ensures Played(cfg, w, steps).store == Act(cfg, w.store, Do(op, w.store.clock))
    ensures Played(cfg, w, steps).sessions.Keys == w.sessions.Keys
  {
    hide Agree, Watched, Anchor, CallerOk, Plan, Apply, Modified;
    var keys := Watched(cfg, op, w.store);
    AnchorIsWatched(cfg, op, w.store);
    var begin := [Begin(sid, op)];
    OneStep(cfg, w, Begin(sid, op));
    var w1 := Move(cfg, w, Begin(sid, op));
    OneStep(cfg, w1, Watch(sid, keys));
    ScheduleJoins(cfg, w, begin, [Watch(sid, keys)]);
    var w2 := Move(cfg, w1, Watch(sid, keys));
    var fetches := SomeReads(sid, keys, w.store);
    ReadsGo(cfg, w2, sid, keys, fetches);
    ScheduleJoins(cfg, w, begin + [Watch(sid, keys)], fetches);
    var w3 := Played(cfg, w2, fetches);
    OneStep(cfg, w3, AskTime(sid));
    ScheduleJoins(cfg, w, begin + [Watch(sid, keys)] + fetches, [AskTime(sid)]);
    var w4 := Move(cfg, w3, AskTime(sid));
    OneStep(cfg, w4, Execute(sid));
    ScheduleJoins(cfg, w, begin + [Watch(sid, keys)] + fetches + [AskTime(sid)], [Execute(sid)]);
    steps := begin + [Watch(sid, keys)] + fetches + [AskTime(sid)] + [Execute(sid)];
  }

  /** Every transaction of the run has the time it is committed at. */
  ghost predicate UpToDate(cfg: Config, s: Store, acts: seq<Action>)
    decreases |acts|
  {
    acts == []
    || ((acts[0].Do? ==> acts[0].now == s.clock) && UpToDate(cfg, Act(cfg, s, acts[0]), acts[1..]))
  }

  /** Any run of atomic steps, one after the other, is what some interleaving of clients amounts to. */
  lemma {:induction false} RunsHappen(cfg: Config, w: World, acts: seq<Action>) returns (steps: seq<Step>)
    requires w.sessions == map[] && Admissible(cfg, w.store, acts) && UpToDate(cfg, w.store, acts)
    ensures Schedule(cfg, w, steps) && Played(cfg, w, steps) == World(Run(cfg, w.store, acts), map[])
    decreases |acts|
  {
    hide Act, Allowed, Plan, CallerOk;
    if acts == [] {
      steps := [];
    } else {
      var first := Happens(cfg, w, acts[0]);
      var rest := RunsHappen(cfg, Played(cfg, w, first), acts[1..]);
      ScheduleJoins(cfg, w, first, rest);
      steps := first + rest;
    }
  }

  lemma Happens(cfg: Config, w: World, a: Action) returns (steps: seq<Step>)
    requires w.sessions == map[] && Enabled(cfg, w.store, a) && (a.Do? ==> a.now == w.store.clock)
    ensures Schedule(cfg, w, steps) && Played(cfg, w, steps) == World(Act(cfg, w.store, a), map[])
  {
    hide Act, Plan;
    match a {
      case Do(op, _) =>
        steps := UndisturbedGoesThrough(cfg, w, 0, op);
        assert Played(cfg, w, steps).sessions == map[];
      case _ =>
        OneStep(cfg, w, Background(a));
        steps := [Background(a)];
        assert Broadcast(w, Act(cfg, w.store, a)).sessions == map[];
    }
  }
}
