/**
 `publish_results`: any number of publishers claim results, send them to the broker and
 acknowledge them in the store.  A send may reach the broker, even more than once, and still
 look like a failure; a publisher may stop anywhere, and what it has sent may arrive later.
 */
module Publishing {
  import opened Wrappers
  import opened JobModel
  import opened JobInvariant
  import opened JobPreservation
  import opened JobRuns
  import opened JobGuarantees
  import opened JobEffects

  datatype Sent = Sent(id: Identity, topic: string, event: Event)

  /** One send, by number; `delivered` once the broker has appended it, whatever the publisher knows. */
  datatype Send = Send(message: Sent, delivered: bool)

  datatype Publisher = Idle | Sending(send: nat) | Confirmed(message: Sent)

  /** Sends stay in the state after their publisher has given up or stopped. */
  datatype System = System(store: Store, log: seq<Sent>, sends: seq<Send>, publishers: map<string, Publisher>)

  datatype Move =
    | Elsewhere(action: Action)
    | Connect(p: string)
    | ClaimOne(p: string, id: Identity, now: int)
    | Append(send: nat)
    | Confirm(p: string)
    | GiveUp(p: string)
    | Settle(p: string, now: int)
    | Stop(p: string)

  /** Only publishers claim and acknowledge results. */
  predicate Publishes(a: Action) {
    a.Do? && (a.op.Acknowledge? || (a.op.Change? && a.op.update.ClaimResult?))
  }

  ghost predicate Can(cfg: Config, y: System, m: Move) {
    match m
    case Elsewhere(a) => !Publishes(a) && Enabled(cfg, y.store, a)
    case Connect(p) => p !in y.publishers
    case ClaimOne(p, id, now) =>
      && p in y.publishers && y.publishers[p].Idle?
      && Enabled(cfg, y.store, Do(Change(id, ClaimResult(p)), now))
    case Append(n) => n < |y.sends|
    case Confirm(p) =>
      && p in y.publishers && y.publishers[p].Sending?
      && y.publishers[p].send < |y.sends| && y.sends[y.publishers[p].send].delivered
    case GiveUp(p) => p in y.publishers
    case Settle(p, now) =>
      && p in y.publishers && y.publishers[p].Confirmed?
      && Enabled(cfg, y.store, Do(Acknowledge(y.publishers[p].message.id, p), now))
    case Stop(p) => p in y.publishers
  }

  ghost function Next(cfg: Config, y: System, m: Move): System
    requires Can(cfg, y, m)
  {
    match m
    case Elsewhere(a) => y.(store := Act(cfg, y.store, a))
    case Connect(p) => y.(publishers := y.publishers[p := Publisher.Idle])
    case ClaimOne(p, id, now) =>
      var txn := PlanChange(cfg, id, ClaimResult(p), now, y.store);
      if txn.reply.Changed? && txn.reply.record.event.Some? then
        var r := txn.reply.record;
        y.(store := Act(cfg, y.store, Do(Change(id, ClaimResult(p)), now)),
           sends := y.sends + [Send(Sent(id, r.resultTopic, r.event.value), false)],
           publishers := y.publishers[p := Sending(|y.sends|)])
      else y.(store := Act(cfg, y.store, Do(Change(id, ClaimResult(p)), now)))
    case Append(n) =>
      y.(log := y.log + [y.sends[n].message], sends := y.sends[n := y.sends[n].(delivered := true)])
    case Confirm(p) =>
      y.(publishers := y.publishers[p := Publisher.Confirmed(y.sends[y.publishers[p].send].message)])
    case GiveUp(p) => y.(publishers := y.publishers[p := Publisher.Idle])
    case Settle(p, now) =>
      y.(store := Act(cfg, y.store, Do(Acknowledge(y.publishers[p].message.id, p), now)),
         publishers := y.publishers[p := Publisher.Idle])
    case Stop(p) => y.(publishers := y.publishers - {p})
  }

  /** The message is the result of a record of the store. */
  ghost predicate Genuine(s: Store, m: Sent) {
    && m.id in s.records
    && s.records[m.id].event == Some(m.event)
    && s.records[m.id].resultTopic == m.topic
  }

  ghost predicate Reached(log: seq<Sent>, id: Identity) {
    exists i :: 0 <= i < |log| && log[i].id == id
  }

  ghost predicate SendOk(s: Store, log: seq<Sent>, x: Send) {
    Genuine(s, x.message) && (x.delivered ==> Reached(log, x.message.id))
  }

  ghost predicate PublisherOk(s: Store, log: seq<Sent>, sends: nat, x: Publisher) {
    match x
    case Idle => true
    case Sending(n) => n < sends
    case Confirmed(m) => Genuine(s, m) && Reached(log, m.id)
  }

  ghost predicate SystemOk(cfg: Config, y: System) {
    && Inv(cfg, y.store)
    && (forall i | 0 <= i < |y.log| :: Genuine(y.store, y.log[i]))
    && (forall n | 0 <= n < |y.sends| :: SendOk(y.store, y.log, y.sends[n]))
    && (forall p | p in y.publishers :: PublisherOk(y.store, y.log, |y.sends|, y.publishers[p]))
    && (forall id | id in y.store.records && y.store.records[id].published :: Reached(y.log, id))
  }

  /** An event once written is never replaced, so a message that was genuine stays genuine. */
  lemma GenuineStays(s: Store, t: Store, m: Sent, cfg: Config)
    requires RecordsOk(cfg, s) && Grows(s, t) && Genuine(s, m)
    ensures Genuine(t, m)
  {
    assert Evolves(s.records[m.id], t.records[m.id]);
  }

  lemma PublisherStays(cfg: Config, s: Store, t: Store, log: seq<Sent>, sends: nat, x: Publisher)
    requires RecordsOk(cfg, s) && Grows(s, t) && PublisherOk(s, log, sends, x)
    ensures PublisherOk(t, log, sends, x)
  {
    hide Genuine, Grows, RecordsOk;
    if x.Confirmed? { GenuineStays(s, t, x.message, cfg); }
  }

  /** The store moves on: everything already sent or claimed stays what it was. */
  lemma StoreMoves(cfg: Config, y: System, t: Store)
    requires SystemOk(cfg, y) && Inv(cfg, t) && Grows(y.store, t)
    requires forall id | id in t.records && t.records[id].published :: Reached(y.log, id)
    ensures SystemOk(cfg, y.(store := t))
  {
    hide QueueOk, OrderOk, SlotsOk, RunningOk, PendingOk, LatestOk, BuffersOk, BatchQueueOk, MetricsOk, ClaimsOk,
      TimesOk, RecordsOk, Grows, Genuine, PublisherOk, Reached;
    forall i | 0 <= i < |y.log| ensures Genuine(t, y.log[i]) { GenuineStays(y.store, t, y.log[i], cfg); }
    forall n | 0 <= n < |y.sends| ensures SendOk(t, y.log, y.sends[n]) {
      GenuineStays(y.store, t, y.sends[n].message, cfg);
    }
    forall p | p in y.publishers ensures PublisherOk(t, y.log, |y.sends|, y.publishers[p]) {
      PublisherStays(cfg, y.store, t, y.log, |y.sends|, y.publishers[p]);
    }
  }

  // ---------- Who can set `published`

  ghost predicate NewlyPublished(s: Store, t: Store, id: Identity) {
    && id in t.records && t.records[id].published
    && !(id in s.records && s.records[id].published)
  }

  lemma UpdateKeepsUnpublished(cfg: Config, u: Update, r: JobRecord, now: int)
    requires Wf(cfg, r) && Updated(cfg, u, r, now).Save?
    ensures !Updated(cfg, u, r, now).record.published
  {}

  /** No action but an acknowledgement publishes anything. */
  lemma OnlyAcknowledgePublishes(cfg: Config, s: Store, a: Action, id: Identity)
    requires cfg.Valid() && Inv(cfg, s) && Enabled(cfg, s, a) && !(a.Do? && a.op.Acknowledge?)
    ensures !NewlyPublished(s, Act(cfg, s, a), id)
  {
    hide QueueOk, OrderOk, SlotsOk, RunningOk, PendingOk, LatestOk, BuffersOk, BatchQueueOk, MetricsOk, ClaimsOk,
      TimesOk, RecordsOk, Wf, Updated, NewRecord, PlanClaim, PlanChange, PlanStage, NextBuffers, NextBatchQueue,
      ObserveEnd, NextQueue, NextSlots, Live;
    match a
    case Do(Register(q), now) => NewRecordOk(cfg, q, now);
    case Do(Claim(kind, token), now) => ClaimPublishesNothing(cfg, s, kind, token, now, id);
    case Do(Change(other, u), now) => ChangePublishesNothing(cfg, s, other, u, now, id);
    case Do(Stage(other, topic, batch, photos), now) => StageKeepsRecords(cfg, s, other, topic, batch, photos, now);
    case _ =>
  }

  lemma StageKeepsRecords(cfg: Config, s: Store, id: Identity, topic: string, batch: int, photos: Batch, now: int)
    ensures Effect(cfg, PlanStage(cfg, id, topic, batch, photos, now, s), s).records == s.records
  {
    hide Conflicts, PhotoIds;
  }

  lemma ClaimPublishesNothing(cfg: Config, s: Store, kind: Kind, token: Token, now: int, id: Identity)
    requires cfg.Valid() && Inv(cfg, s)
    ensures !NewlyPublished(s, Effect(cfg, PlanClaim(cfg, kind, token, now, s), s), id)
  {
    hide QueueOk, OrderOk, SlotsOk, RunningOk, PendingOk, LatestOk, BuffersOk, BatchQueueOk, MetricsOk, ClaimsOk,
      TimesOk, Wf, FirstFree, StaleSlots, StartDelta, Apply;
    NoStaleSlots(cfg, s, kind);
    if PlanClaim(cfg, kind, token, now, s).Exec? {
      HeadIsQueued(s, kind);
      StartWrites(cfg, s, Head(s.Queue(kind)), token, FirstFree(s, kind, 0), now);
    }
  }

  lemma ChangePublishesNothing(cfg: Config, s: Store, other: Identity, u: Update, now: int, id: Identity)
    requires cfg.Valid() && RecordsOk(cfg, s)
    ensures !NewlyPublished(s, Effect(cfg, PlanChange(cfg, other, u, now, s), s), id)
  {
    hide Updated, Wf;
    if PlanChange(cfg, other, u, now, s).Exec? {
      UpdatedIsLegal(cfg, u, s.records[other], now);
      UpdateKeepsUnpublished(cfg, u, s.records[other], now);
      ChangeRest(cfg, s, u, Updated(cfg, u, s.records[other], now).record, now);
    }
  }

  lemma AcknowledgePublishesOne(cfg: Config, s: Store, id: Identity, p: string, other: Identity)
    requires NewlyPublished(s, Effect(cfg, PlanAcknowledge(id, p, s), s), other)
    ensures other == id
  {}

  /** A successful claim hands the publisher the record's own result. */
  lemma ClaimIsGenuine(cfg: Config, s: Store, p: string, id: Identity, now: int)
    requires Inv(cfg, s) && PlanChange(cfg, id, ClaimResult(p), now, s).reply.Changed?
    ensures var r := PlanChange(cfg, id, ClaimResult(p), now, s).reply.record;
      && r.event.Some?
      && Genuine(Act(cfg, s, Do(Change(id, ClaimResult(p)), now)), Sent(id, r.resultTopic, r.event.value))
  {
    hide QueueOk, OrderOk, SlotsOk, RunningOk, PendingOk, LatestOk, BuffersOk, BatchQueueOk, MetricsOk, ClaimsOk,
      TimesOk, Wf, ObserveEnd, SlotsHeldBy;
    assert s.records[id].id == id;
  }

  lemma StoreStep(cfg: Config, y: System, a: Action)
    requires cfg.Valid() && SystemOk(cfg, y) && Enabled(cfg, y.store, a)
    requires a.Do? && a.op.Acknowledge? ==> Reached(y.log, a.op.id)
    ensures SystemOk(cfg, y.(store := Act(cfg, y.store, a)))
  {
    hide Inv, Act, Enabled, Reached, Genuine, PublisherOk;
    var t := Act(cfg, y.store, a);
    ActKeepsInv(cfg, y.store, a);
    ActGrows(cfg, y.store, a);
    forall id | id in t.records && t.records[id].published ensures Reached(y.log, id) {
      if NewlyPublished(y.store, t, id) { PublishedBy(cfg, y.store, a, id); }
    }
    StoreMoves(cfg, y, t);
  }

  lemma PublishedBy(cfg: Config, s: Store, a: Action, id: Identity)
    requires cfg.Valid() && Inv(cfg, s) && Enabled(cfg, s, a) && NewlyPublished(s, Act(cfg, s, a), id)
    ensures a.Do? && a.op.Acknowledge? && a.op.id == id
  {
    hide Inv, Enabled, Apply, NewlyPublished, PlanAcknowledge;
    if a.Do? && a.op.Acknowledge? {
      AcknowledgePublishesOne(cfg, s, a.op.id, a.op.publisher, id);
    } else {
      OnlyAcknowledgePublishes(cfg, s, a, id);
    }
  }

  lemma LogGrows(cfg: Config, y: System, m: Sent)
    requires SystemOk(cfg, y) && Genuine(y.store, m)
    ensures SystemOk(cfg, y.(log := y.log + [m])) && Reached(y.log + [m], m.id)
  {
    hide Inv, Genuine;
    var log := y.log + [m];
    assert log[|y.log|] == m;
    forall id | Reached(y.log, id) ensures Reached(log, id) {
      var i :| 0 <= i < |y.log| && y.log[i].id == id;
      assert log[i].id == id;
    }
  }

  lemma AppendKeeps(cfg: Config, y: System, n: nat)
    requires SystemOk(cfg, y) && n < |y.sends|
    ensures SystemOk(cfg, Next(cfg, y, Append(n)))
  {
    hide Inv, Genuine, Reached;
    LogGrows(cfg, y, y.sends[n].message);
  }

  lemma MoveKeepsSystem(cfg: Config, y: System, m: Move)
    requires cfg.Valid() && SystemOk(cfg, y) && Can(cfg, y, m)
    ensures SystemOk(cfg, Next(cfg, y, m))
  {
    hide Inv, Act, Enabled, Reached, Genuine, PlanChange;
    match m
    case Elsewhere(a) => StoreStep(cfg, y, a);
    case ClaimOne(p, id, now) =>
      StoreStep(cfg, y, Do(Change(id, ClaimResult(p)), now));
      if PlanChange(cfg, id, ClaimResult(p), now, y.store).reply.Changed? {
        ClaimIsGenuine(cfg, y.store, p, id, now);
      }
    case Append(n) => AppendKeeps(cfg, y, n);
    case Settle(p, now) => StoreStep(cfg, y, Do(Acknowledge(y.publishers[p].message.id, p), now));
    case Connect(_) =>
    case Confirm(_) =>
    case GiveUp(_) =>
    case Stop(_) =>
  }

  ghost predicate History(cfg: Config, y: System, moves: seq<Move>)
    decreases |moves|
  {
    moves == [] || (Can(cfg, y, moves[0]) && History(cfg, Next(cfg, y, moves[0]), moves[1..]))
  }

  ghost function Outcome(cfg: Config, y: System, moves: seq<Move>): System
    requires History(cfg, y, moves)
    decreases |moves|
  {
    if moves == [] then y else Outcome(cfg, Next(cfg, y, moves[0]), moves[1..])
  }

  lemma {:induction false} HistoryKeepsSystem(cfg: Config, y: System, moves: seq<Move>)
    requires cfg.Valid() && SystemOk(cfg, y) && History(cfg, y, moves)
    ensures SystemOk(cfg, Outcome(cfg, y, moves))
    decreases |moves|
  {
    hide SystemOk, Can, Next;
    if moves != [] {
      MoveKeepsSystem(cfg, y, moves[0]);
      HistoryKeepsSystem(cfg, Next(cfg, y, moves[0]), moves[1..]);
    }
  }

  const SILENT := System(EMPTY_STORE, [], [], map[])

  /** A result marked published has reached the broker at least once, with the record's own content. */
  lemma PublishedWasDelivered(cfg: Config, moves: seq<Move>, id: Identity)
    requires cfg.Valid() && History(cfg, SILENT, moves)
    requires id in Outcome(cfg, SILENT, moves).store.records
    requires Outcome(cfg, SILENT, moves).store.records[id].published
    ensures var y := Outcome(cfg, SILENT, moves);
      exists i :: 0 <= i < |y.log| && y.log[i].id == id
                  && y.store.records[id].event == Some(y.log[i].event) && y.store.records[id].resultTopic == y.log[i].topic
  {
    hide Inv;
    InitInv(cfg);
    HistoryKeepsSystem(cfg, SILENT, moves);
    var y := Outcome(cfg, SILENT, moves);
    assert Reached(y.log, id);
    var i :| 0 <= i < |y.log| && y.log[i].id == id;
    assert Genuine(y.store, y.log[i]);
  }

  /** Every copy of a result the broker ever receives is the same message, however often it is sent. */
  lemma CopiesAreIdentical(cfg: Config, moves: seq<Move>, i: nat, j: nat)
    requires cfg.Valid() && History(cfg, SILENT, moves)
    requires i < |Outcome(cfg, SILENT, moves).log| && j < |Outcome(cfg, SILENT, moves).log|
    requires Outcome(cfg, SILENT, moves).log[i].id == Outcome(cfg, SILENT, moves).log[j].id
    ensures Outcome(cfg, SILENT, moves).log[i] == Outcome(cfg, SILENT, moves).log[j]
  {
    hide Inv;
    InitInv(cfg);
    HistoryKeepsSystem(cfg, SILENT, moves);
    var y := Outcome(cfg, SILENT, moves);
    assert Genuine(y.store, y.log[i]) && Genuine(y.store, y.log[j]);
  }

  /** No result is dropped: a terminal record is in the outbox until it has been delivered and acknowledged. */
  lemma NoResultIsLost(cfg: Config, moves: seq<Move>, id: Identity)
    requires cfg.Valid() && History(cfg, SILENT, moves)
    requires id in Outcome(cfg, SILENT, moves).store.records
    requires Outcome(cfg, SILENT, moves).store.records[id].status.Terminal()
    ensures var y := Outcome(cfg, SILENT, moves);
      && y.store.records[id].event.Some?
      && (id in y.store.pending || Reached(y.log, id))
      && (y.store.records[id].published <==> id !in y.store.pending)
  {
    hide Inv, Reached;
    InitInv(cfg);
    HistoryKeepsSystem(cfg, SILENT, moves);
    IndexesOf(cfg, Outcome(cfg, SILENT, moves).store, id);
  }

  // ---------- Nothing stands in the way of a result

  /** The moves of a publisher that is not interrupted. */
  function Delivery(y: System, p: string, id: Identity, now: int): seq<Move> {
    [ClaimOne(p, id, now), Append(|y.sends|), Confirm(p), Settle(p, now)]
  }

  lemma FourMoves(cfg: Config, y: System, a: Move, b: Move, c: Move, d: Move)
    requires Can(cfg, y, a) && Can(cfg, Next(cfg, y, a), b)
    requires Can(cfg, Next(cfg, Next(cfg, y, a), b), c)
    requires Can(cfg, Next(cfg, Next(cfg, Next(cfg, y, a), b), c), d)
    ensures History(cfg, y, [a, b, c, d])
    ensures Outcome(cfg, y, [a, b, c, d]) == Next(cfg, Next(cfg, Next(cfg, Next(cfg, y, a), b), c), d)
  {
    hide Can, Next;
    var y1 := Next(cfg, y, a);
    var y2 := Next(cfg, y1, b);
    var y3 := Next(cfg, y2, c);
    var z := Next(cfg, y3, d);
    FirstMove(cfg, y3, d, []);
    FirstMove(cfg, y2, c, [d]);
    FirstMove(cfg, y1, b, [c, d]);
    FirstMove(cfg, y, a, [b, c, d]);
    assert Outcome(cfg, z, []) == z;
    assert [d] == [d] + [] && [c, d] == [c] + [d] && [b, c, d] == [b] + [c, d] && [a, b, c, d] == [a] + [b, c, d];
    hide Outcome, History;
  }

  lemma FirstMove(cfg: Config, y: System, m: Move, rest: seq<Move>)
    requires Can(cfg, y, m) && History(cfg, Next(cfg, y, m), rest)
    ensures History(cfg, y, [m] + rest) && Outcome(cfg, y, [m] + rest) == Outcome(cfg, Next(cfg, y, m), rest)
  {
    hide Can, Next;
    assert ([m] + rest)[1..] == rest;
  }

  /** A publisher that is not interrupted delivers a due result, once, and takes it out of the outbox. */
  lemma DueResultIsPublished(cfg: Config, y: System, p: string, id: Identity, now: int)
    requires cfg.Valid() && SystemOk(cfg, y) && p in y.publishers && y.publishers[p].Idle?
    requires HasEndedAs(y.store, id) && !y.store.records[id].published && y.store.records[id].publishUntil <= now
    requires Enabled(cfg, y.store, Do(Change(id, ClaimResult(p)), now))
    ensures History(cfg, y, Delivery(y, p, id, now))
    ensures var z := Outcome(cfg, y, Delivery(y, p, id, now));
            && y.store.records[id].event.Some?
            && z.log == y.log + [Sent(id, y.store.records[id].resultTopic, y.store.records[id].event.value)]
            && id in z.store.records && z.store.records[id].published && id !in z.store.pending
  {
    hide Inv, Act, Enabled, Genuine, Reached, PlanChange, SendOk;
    var t := Act(cfg, y.store, Do(Change(id, ClaimResult(p)), now));
    ClaimResultObeys(cfg, y.store, id, p, now);
    ClaimHandsOut(cfg, y.store, id, p, now);
    ClaimIsGenuine(cfg, y.store, p, id, now);
    var y1 := Next(cfg, y, ClaimOne(p, id, now));
    var y2 := Next(cfg, y1, Append(|y.sends|));
    var y3 := Next(cfg, y2, Confirm(p));
    AcknowledgeObeys(cfg, t, id, p, now);
    AcknowledgeAnytime(cfg, y.store, t, id, p, now);
    FourMoves(cfg, y, ClaimOne(p, id, now), Append(|y.sends|), Confirm(p), Settle(p, now));
  }

  lemma ClaimHandsOut(cfg: Config, s: Store, id: Identity, p: string, now: int)
    requires Granted(PlanChange(cfg, id, ClaimResult(p), now, s).reply).Some?
    ensures PlanChange(cfg, id, ClaimResult(p), now, s).reply.Changed?
    ensures PlanChange(cfg, id, ClaimResult(p), now, s).reply.record
            == Granted(PlanChange(cfg, id, ClaimResult(p), now, s).reply).value
  {
    hide PlanChange;
  }

  lemma AcknowledgeAnytime(cfg: Config, s: Store, t: Store, id: Identity, p: string, now: int)
    requires Enabled(cfg, s, Do(Change(id, ClaimResult(p)), now)) && t.clock == s.clock
    ensures Enabled(cfg, t, Do(Acknowledge(id, p), now))
  {}
}
