/**
 `consume_requests` on one partition.  The store and the committed offset are written in
 separate transactions, consumers are reassigned at any moment, and a rejected message
 may be retried, quarantined or too large to quarantine.
 */
module Intake {
  import opened Wrappers
  import opened JobModel
  import opened JobInvariant
  import opened JobPreservation
  import opened JobRuns
  import opened JobGuarantees
  import opened JobEffects

  datatype Content =
    | Job(request: Request)
    | Photos(id: Identity, topic: string, batch: int, photos: Batch)
    | Malformed

  /** The message a consumer is working on; `settled` once `accept` has returned. */
  datatype Hand = Empty | Holding(offset: nat, settled: bool)

  datatype DeadLetter = Stored | Unreachable | TooLarge(owned: bool)

  /**
   `position` is the next offset the current consumer fetches, None while nobody is
   owned.  `attempts` is the shared counter of `reject`; `staged` and `quarantined`
   record how messages that are not jobs were settled.
   */
  datatype Partition = Partition(
    messages: seq<Content>,
    committed: nat,
    position: Option<nat>,
    hand: Hand,
    paused: bool,
    attempts: map<nat, nat>,
    staged: set<nat>,
    quarantined: set<nat>)

  datatype System = System(store: Store, part: Partition)

  datatype Move =
    | Elsewhere(action: Action)
    | Produce(content: Content)
    | Assign
    | Revoke
    | Fetch
    | Accept(now: int, letter: DeadLetter)
    | Commit(succeeds: bool)

  const MAX_ATTEMPTS := 3

  function Attempts(part: Partition, offset: nat): nat {
    if offset in part.attempts then part.attempts[offset] else 0
  }

  function OpOf(c: Content): Op
    requires !c.Malformed?
  {
    match c
    case Job(q) => Register(q)
    case Photos(id, topic, batch, photos) => Stage(id, topic, batch, photos)
  }

  ghost predicate Can(cfg: Config, y: System, m: Move) {
    match m
    case Elsewhere(a) => Enabled(cfg, y.store, a)
    case Produce(_) => true
    case Assign => true
    case Revoke => true
    case Fetch =>
      && y.part.hand.Empty? && !y.part.paused
      && y.part.position.Some? && y.part.position.value < |y.part.messages|
    case Accept(now, _) =>
      && y.part.hand.Holding? && !y.part.hand.settled && y.part.hand.offset < |y.part.messages|
      && var c := y.part.messages[y.part.hand.offset];
         !c.Malformed? ==> Enabled(cfg, y.store, Do(OpOf(c), now))
    case Commit(_) => y.part.hand.Holding? && y.part.hand.settled
  }

  /** `reject`: count the failure; the third one moves the message to the dead-letter topic. */
  function Reject(part: Partition, offset: nat, letter: DeadLetter): Partition {
    var count := Min(MAX_ATTEMPTS, Attempts(part, offset) + 1);
    var counted := part.(attempts := part.attempts[offset := count]);
    if count < MAX_ATTEMPTS then counted
    else
      match letter
      case Stored => counted.(quarantined := part.quarantined + {offset}, hand := Holding(offset, true))
      case Unreachable => counted
      case TooLarge(owned) =>
        if owned then counted.(position := Some(offset), paused := true, hand := Empty)
        else counted.(position := None, hand := Empty)
  }

  ghost function Next(cfg: Config, y: System, m: Move): System
    requires Can(cfg, y, m)
  {
    var part := y.part;
    match m
    case Elsewhere(a) => y.(store := Act(cfg, y.store, a))
    case Produce(c) => y.(part := part.(messages := part.messages + [c]))
    case Assign => y.(part := part.(position := Some(part.committed), hand := Empty, paused := false))
    case Revoke => y.(part := part.(position := None, hand := Empty))
    case Fetch =>
      y.(part := part.(position := Some(part.position.value + 1), hand := Holding(part.position.value, false)))
    case Accept(now, letter) =>
      var n := part.hand.offset;
      if part.messages[n].Malformed? then y.(part := Reject(part, n, letter))
      else
        var op := OpOf(part.messages[n]);
        var t := Act(cfg, y.store, Do(op, now));
        if Plan(cfg, op, now, y.store).reply.Invalid? then System(t, Reject(part, n, letter))
        else
          System(t, part.(hand := Holding(n, true),
                          staged := if op.Stage? then part.staged + {n} else part.staged))
    case Commit(succeeds) =>
      var n := part.hand.offset;
      y.(part := part.(committed := if succeeds then n + 1 else part.committed, hand := Empty))
  }

  /** The message at this offset needs no further delivery. */
  predicate Settled(s: Store, part: Partition, offset: nat)
    requires offset < |part.messages|
  {
    match part.messages[offset]
    case Job(q) => Closing(s, q.id)
    case Photos(_, _, _, _) => offset in part.staged || offset in part.quarantined
    case Malformed => offset in part.quarantined
  }

  ghost predicate SystemOk(cfg: Config, y: System) {
    var part := y.part;
    && Inv(cfg, y.store)
    && part.committed <= |part.messages|
    && (forall n: nat | n < part.committed :: Settled(y.store, part, n))
    && (part.position.Some? ==>
          && part.committed <= part.position.value <= |part.messages|
          && (forall n: nat | n < part.position.value && !(part.hand.Holding? && part.hand.offset == n) ::
                Settled(y.store, part, n)))
    && (part.hand.Holding? ==> part.position == Some(part.hand.offset + 1) && part.committed <= part.hand.offset)
    && (part.hand.Holding? && part.hand.settled ==> Settled(y.store, part, part.hand.offset))
    && (forall n | n in part.quarantined ::
          n < |part.messages| && !part.messages[n].Job? && Attempts(part, n) == MAX_ATTEMPTS)
  }

  lemma SettledStays(s: Store, t: Store, part: Partition)
    requires Grows(s, t)
    ensures forall n: nat | n < |part.messages| && Settled(s, part, n) :: Settled(t, part, n)
  {}

  lemma StoreStep(cfg: Config, y: System, a: Action)
    requires cfg.Valid() && SystemOk(cfg, y) && Enabled(cfg, y.store, a)
    ensures SystemOk(cfg, y.(store := Act(cfg, y.store, a)))
  {
    hide Inv, Enabled, Act, Grows, Settled;
    ActKeepsInv(cfg, y.store, a);
    ActGrows(cfg, y.store, a);
    SettledStays(y.store, Act(cfg, y.store, a), y.part);
  }

  /** Registering a job leaves its identity accepted or ignored, whatever the outcome. */
  lemma RegisterCloses(cfg: Config, s: Store, q: Request, now: int)
    ensures Closing(Act(cfg, s, Do(Register(q), now)), q.id)
    ensures !PlanRegister(cfg, q, now, s).reply.Invalid?
  {
    hide NewRecord, NextBuffers, NextBatchQueue, NextQueue, NextSlots, ObserveEnd;
  }

  lemma RejectKeeps(cfg: Config, y: System, letter: DeadLetter)
    requires SystemOk(cfg, y) && y.part.hand.Holding? && !y.part.hand.settled
    requires y.part.hand.offset < |y.part.messages| && !y.part.messages[y.part.hand.offset].Job?
    ensures SystemOk(cfg, y.(part := Reject(y.part, y.part.hand.offset, letter)))
  {
    hide Inv, Closing;
    var n, after := y.part.hand.offset, Reject(y.part, y.part.hand.offset, letter);
    forall k: nat | k < |after.messages| && Settled(y.store, y.part, k) ensures Settled(y.store, after, k) {}
  }

  lemma AcceptKeeps(cfg: Config, y: System, now: int, letter: DeadLetter)
    requires cfg.Valid() && SystemOk(cfg, y) && Can(cfg, y, Accept(now, letter))
    ensures SystemOk(cfg, Next(cfg, y, Accept(now, letter)))
  {
    hide Inv, Act, Enabled, Closing, PlanRegister, PlanStage, Reject;
    var n := y.part.hand.offset;
    if y.part.messages[n].Malformed? {
      RejectKeeps(cfg, y, letter);
    } else {
      var op := OpOf(y.part.messages[n]);
      var moved := y.(store := Act(cfg, y.store, Do(op, now)));
      StoreStep(cfg, y, Do(op, now));
      if op.Register? { RegisterCloses(cfg, y.store, op.request, now); }
      if Plan(cfg, op, now, y.store).reply.Invalid? {
        RejectKeeps(cfg, moved, letter);
      } else {
        AcceptedKeeps(cfg, moved, op);
      }
    }
  }

  /**
   What `accept` does with a message.  A job, and a batch that staging does not reject, is settled.
   A rejected one counts as failed; it is tried again until the third failure and then set aside,
   as long as the dead-letter topic takes it.
   */
  lemma AcceptDecides(cfg: Config, y: System, now: int, letter: DeadLetter)
    requires Can(cfg, y, Accept(now, letter))
    ensures var n := y.part.hand.offset;
            var z := Next(cfg, y, Accept(now, letter));
            var rejected := match y.part.messages[n]
              case Job(_) => false
              case Photos(id, topic, batch, photos) => StageAnswer(cfg, y.store, id, topic, batch, photos) == Invalid
              case Malformed => true;
            && z.part.committed == y.part.committed && z.part.messages == y.part.messages
            && (!rejected ==>
                  && z.part.hand == Holding(n, true) && z.part.quarantined == y.part.quarantined
                  && (y.part.messages[n].Photos? ==> n in z.part.staged))
            && (rejected ==>
                  && Attempts(z.part, n) == (if Attempts(y.part, n) < 3 then Attempts(y.part, n) + 1 else 3)
                  && (if Attempts(y.part, n) < 2 || letter.Unreachable? then
                        z.part.hand == y.part.hand && z.part.quarantined == y.part.quarantined
                      else if letter.Stored? then
                        z.part.hand == Holding(n, true) && z.part.quarantined == y.part.quarantined + {n}
                      else
                        z.part.hand == Empty && z.part.quarantined == y.part.quarantined
                        && z.part.position == (if letter.owned then Some(n) else None)))
  {
    hide Act, Enabled, PlanStage, StageAnswer, PlanRegister;
    match y.part.messages[y.part.hand.offset]
    case Job(q) => RegisterCloses(cfg, y.store, q, now);
    case Photos(id, topic, batch, photos) => StageReplies(cfg, y.store, id, topic, batch, photos, now);
    case Malformed =>
  }

  lemma AcceptedKeeps(cfg: Config, y: System, op: Op)
    requires SystemOk(cfg, y) && y.part.hand.Holding? && y.part.hand.offset < |y.part.messages|
    requires !y.part.messages[y.part.hand.offset].Malformed? && op == OpOf(y.part.messages[y.part.hand.offset])
    requires op.Register? ==> Closing(y.store, op.request.id)
    ensures SystemOk(cfg, y.(part := y.part.(
              hand := Holding(y.part.hand.offset, true),
              staged := if op.Stage? then y.part.staged + {y.part.hand.offset} else y.part.staged)))
  {
    hide Inv, Closing;
    var after := y.part.(hand := Holding(y.part.hand.offset, true),
                         staged := if op.Stage? then y.part.staged + {y.part.hand.offset} else y.part.staged);
    forall k: nat | k < |after.messages| && Settled(y.store, y.part, k) ensures Settled(y.store, after, k) {}
  }

  lemma MoveKeepsSystem(cfg: Config, y: System, m: Move)
    requires cfg.Valid() && SystemOk(cfg, y) && Can(cfg, y, m)
    ensures SystemOk(cfg, Next(cfg, y, m))
  {
    hide Inv, Act, Enabled, Closing;
    match m
    case Elsewhere(a) => StoreStep(cfg, y, a);
    case Accept(now, letter) => AcceptKeeps(cfg, y, now, letter);
    case Produce(c) =>
      var after := y.part.(messages := y.part.messages + [c]);
      forall k: nat | k < |y.part.messages| && Settled(y.store, y.part, k) ensures Settled(y.store, after, k) {}
    case _ =>
      forall k: nat | k < |y.part.messages| && Settled(y.store, y.part, k)
        ensures Settled(y.store, Next(cfg, y, m).part, k)
      {}
  }

  ghost predicate History(cfg: Config, y: System, moves: seq<Move>)
    decreases |moves|
  {
    moves == [] || (Can(cfg, y, moves[0]) && History(cfg, Next(cfg, y, moves[0]), moves[1..]))
  }

  ghost function Outcome(cfg: Config, y: System, moves: seq<Move>): System
    requires History(cfg, y, moves)
    decreases |moves|
  {
    if moves == [] then y else Outcome(cfg, Next(cfg, y, moves[0]), moves[1..])
  }

  lemma {:induction false} HistoryKeepsSystem(cfg: Config, y: System, moves: seq<Move>)
    requires cfg.Valid() && SystemOk(cfg, y) && History(cfg, y, moves)
    ensures SystemOk(cfg, Outcome(cfg, y, moves))
    decreases |moves|
  {
    hide SystemOk, Can, Next;
    if moves != [] {
      MoveKeepsSystem(cfg, y, moves[0]);
      HistoryKeepsSystem(cfg, Next(cfg, y, moves[0]), moves[1..]);
    }
  }

  const UNREAD := System(EMPTY_STORE, Partition([], 0, None, Empty, false, map[], {}, {}))

  /**
   Committing an offset loses nothing: below it every job has been accepted or ignored,
   every photo batch settled, and only messages that failed three times were set aside.
   */
  lemma CommittedIsSettled(cfg: Config, moves: seq<Move>, offset: nat)
    requires cfg.Valid() && History(cfg, UNREAD, moves)
    requires offset < Outcome(cfg, UNREAD, moves).part.committed
    ensures var y := Outcome(cfg, UNREAD, moves);
      && offset < |y.part.messages|
      && Settled(y.store, y.part, offset)
      && (y.part.messages[offset].Job? ==>
            Closing(y.store, y.part.messages[offset].request.id) && offset !in y.part.quarantined)
      && (offset in y.part.quarantined ==> Attempts(y.part, offset) == MAX_ATTEMPTS)
  {
    hide Inv;
    InitInv(cfg);
    HistoryKeepsSystem(cfg, UNREAD, moves);
  }

  /** After a restart the consumer resumes at the committed offset, and replaying a settled job is a no-op. */
  lemma RedeliveredJobIsNoop(cfg: Config, moves: seq<Move>, offset: nat, now: int)
    requires cfg.Valid() && History(cfg, UNREAD, moves)
    requires offset < |Outcome(cfg, UNREAD, moves).part.messages|
    requires Settled(Outcome(cfg, UNREAD, moves).store, Outcome(cfg, UNREAD, moves).part, offset)
    requires Outcome(cfg, UNREAD, moves).part.messages[offset].Job?
    ensures var y := Outcome(cfg, UNREAD, moves);
      && Act(cfg, y.store, Do(OpOf(y.part.messages[offset]), now)) == y.store
      && PlanRegister(cfg, y.part.messages[offset].request, now, y.store) == Return(Duplicate)
  {
  }
}
