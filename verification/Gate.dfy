/**
 `RequestGate`: a lease-based semaphore over one sorted set, shared by every replica that
 calls the GPU servers.  Times are seconds.
 */
module Gate {
  import opened Sets
  import opened Wrappers

  type Token = string

  /** Seconds a lease outlives the call it was taken for. */
  const LEASE_MARGIN := 10.0
  /** `CALL_TIMEOUT_GRACE_SEC`. */
  const CALL_GRACE := 5.0

  /** ZCOUNT key (now +inf: tokens whose lease has not run out. */
  function Current(tokens: map<Token, real>, now: real): set<Token> {
    set t | t in tokens && tokens[t] > now
  }

  /** What a granted claim leaves in the sorted set: expired tokens go, the new one is added. */
  function Grant(tokens: map<Token, real>, token: Token, now: real, lease: real): map<Token, real> {
    (map t | t in tokens && tokens[t] > now :: tokens[t])[token := now + lease]
  }

  lemma GrantSize(tokens: map<Token, real>, token: Token, now: real, lease: real, limit: nat)
    requires |Current(tokens, now)| < limit
    ensures |Grant(tokens, token, now, lease)| <= limit
  {
    var after := Grant(tokens, token, now, lease);
    assert after.Keys == Current(tokens, now) + {token};
  }

  /** One poll: the time it reads, the sorted set it finds, and whether its EXEC is refused. */
  datatype Poll = Poll(now: real, found: map<Token, real>, disturbed: bool)

  predicate HasRoom(limit: nat, poll: Poll) {
    |Current(poll.found, poll.now)| < limit && !poll.disturbed
  }

  // ---------- The gate object

  class RequestGate {
    const limit: nat
    var tokens: map<Token, real>

    ghost predicate Valid()
      reads this
    {
      limit >= 1 && |tokens| <= limit
    }

    constructor (limit: nat)
      requires limit >= 1
      ensures Valid() && this.limit == limit && tokens == map[]
    {
      this.limit := limit;
      tokens := map[];
    }

    /** `_claim`; `disturbed` stands for the WatchError: another client modified the key meanwhile. */
    method Claim(token: Token, lease: real, now: real, disturbed: bool) returns (granted: bool)
      requires Valid()
      modifies this
      ensures Valid()
      ensures granted <==> |set t | t in old(tokens) && old(tokens)[t] > now| < limit && !disturbed
      ensures granted ==>
                && tokens.Keys == (set t | t in old(tokens) && old(tokens)[t] > now) + {token}
                && tokens[token] == now + lease && forall t | t in tokens && t != token :: tokens[t] == old(tokens)[t]
      ensures tokens == if granted then Grant(old(tokens), token, now, lease) else old(tokens)
    {
      if |Current(tokens, now)| >= limit { return false; }
      if disturbed { return false; }
      GrantSize(tokens, token, now, lease, limit);
      tokens := map t | t in tokens && tokens[t] > now :: tokens[t];
      tokens := tokens[token := now + lease];
      return true;
    }

    /**
     The polling loop of `run`: claim at every poll until one is granted.  Between polls the other
     clients have changed the sorted set to what the poll finds.
     */
    method Acquire(token: Token, lease: real, polls: seq<Poll>) returns (granted: Option<nat>)
      requires Valid() && forall i | 0 <= i < |polls| :: |polls[i].found| <= limit
      modifies this
      ensures Valid()
      ensures granted.Some? ==>
                && granted.value < |polls| && HasRoom(limit, polls[granted.value])
                && (forall i | 0 <= i < granted.value :: !HasRoom(limit, polls[i]))
                && tokens == Grant(polls[granted.value].found, token, polls[granted.value].now, lease)
      ensures granted.None? ==> forall i | 0 <= i < |polls| :: !HasRoom(limit, polls[i])
      ensures granted.None? ==> tokens == if polls == [] then old(tokens) else polls[|polls| - 1].found
    {
      for i := 0 to |polls|
        invariant Valid() && tokens == if i == 0 then old(tokens) else polls[i - 1].found
        invariant forall k | 0 <= k < i :: !HasRoom(limit, polls[k])
      {
        tokens := polls[i].found;
        var ok := Claim(token, lease, polls[i].now, polls[i].disturbed);
        if ok { return Some(i); }
      }
      return None;
    }

    method Release(token: Token)
      requires Valid()
      modifies this
      ensures Valid() && tokens == old(tokens) - {token}
    {
      RemovalSize(tokens, token);
      tokens := tokens - {token};
    }
  }

  lemma RemovalSize(tokens: map<Token, real>, token: Token)
    ensures |tokens - {token}| <= |tokens|
  {
    SubsetSize((tokens - {token}).Keys, tokens.Keys);
  }

  // ---------- Any number of clients, interleaved

  /**
   A caller of `run`.  While `Trying` it has watched the key and reads the time and the
   set at its own pace; `dirty` means the key was modified since.  A client that is `gone` has
   given up, lost a response or finished: its release may fail, and an EXEC it has sent may
   still arrive, even after the release.
   */
  datatype Phase =
    | Trying(now: Option<real>, seen: Option<map<Token, real>>, dirty: bool)
    | Granted(claimed: real)
    | Calling(claimed: real, start: real)
    | Leaving

  datatype Client = Client(timeout: real, phase: Phase, gone: bool)

  datatype System = System(tokens: map<Token, real>, clock: real, clients: map<Token, Client>)

  datatype Move =
    | Tick(to: real)
    | Arrive(token: Token, timeout: real)
    | Poll(token: Token)
    | ReadTime(token: Token)
    | ReadSet(token: Token)
    | Execute(token: Token)
    | Begin(token: Token)
    | Leave(token: Token)
    | Release(token: Token)
    | Forget(token: Token)

  predicate IsTrying(y: System, t: Token) { t in y.clients && y.clients[t].phase.Trying? }
  predicate IsGone(y: System, t: Token) { t in y.clients && y.clients[t].gone }
  predicate IsCalling(y: System, t: Token) { t in y.clients && y.clients[t].phase.Calling? }

  /** The instant at which `asyncio.timeout` ends the call. */
  function CallEnd(c: Client): real
    requires c.phase.Calling?
  {
    c.phase.start + c.timeout + CALL_GRACE
  }

  ghost predicate Can(y: System, m: Move) {
    match m
    case Tick(to) => to >= y.clock && forall t | IsCalling(y, t) :: to <= CallEnd(y.clients[t])
    case Arrive(token, timeout) => token !in y.clients && token !in y.tokens && timeout >= 0.0
    case Poll(token) => IsTrying(y, token) && !IsGone(y, token)
    case ReadTime(token) => IsTrying(y, token) && !IsGone(y, token) && y.clients[token].phase.now.None?
    case ReadSet(token) =>
      && IsTrying(y, token) && !IsGone(y, token)
      && y.clients[token].phase.now.Some? && y.clients[token].phase.seen.None?
    case Execute(token) =>
      IsTrying(y, token) && y.clients[token].phase.now.Some? && y.clients[token].phase.seen.Some?
    case Begin(token) => token in y.clients && y.clients[token].phase.Granted?
    case Leave(token) => token in y.clients
    case Release(token) => IsGone(y, token)
    case Forget(token) => IsGone(y, token)
  }

  function Dirtied(c: Client): Client {
    if c.phase.Trying? then c.(phase := c.phase.(dirty := true)) else c
  }

  /** The sorted set changes: every client watching it will have its EXEC refused. */
  function Broadcast(clients: map<Token, Client>): map<Token, Client> {
    map t | t in clients :: Dirtied(clients[t])
  }

  function Succeeds(limit: nat, x: Phase): bool
    requires x.Trying? && x.now.Some? && x.seen.Some?
  {
    |Current(x.seen.value, x.now.value)| < limit && !x.dirty
  }

  ghost function Next(limit: nat, y: System, m: Move): System
    requires Can(y, m)
  {
    match m
    case Tick(to) => y.(clock := to)
    case Arrive(token, timeout) => y.(clients := y.clients[token := Client(timeout, Trying(None, None, false), false)])
    case Poll(token) => y.(clients := y.clients[token := y.clients[token].(phase := Trying(None, None, false))])
    case ReadTime(token) =>
      var c := y.clients[token];
      y.(clients := y.clients[token := c.(phase := c.phase.(now := Some(y.clock)))])
    case ReadSet(token) =>
      var c := y.clients[token];
      y.(clients := y.clients[token := c.(phase := c.phase.(seen := Some(y.tokens)))])
    case Execute(token) =>
      var c := y.clients[token];
      if Succeeds(limit, c.phase) then
        var now := c.phase.now.value;
        System(Grant(y.tokens, token, now, c.timeout + LEASE_MARGIN), y.clock,
               Broadcast(y.clients)[token := c.(phase := if c.gone then Leaving else Granted(now))])
      else y
    case Begin(token) =>
      var c := y.clients[token];
      y.(clients := y.clients[token := c.(phase := Calling(c.phase.claimed, y.clock))])
    case Leave(token) =>
      var c := y.clients[token];
      y.(clients := y.clients[token := c.(phase := if c.phase.Trying? then c.phase else Leaving, gone := true)])
    case Release(token) =>
      if token in y.tokens then y.(tokens := y.tokens - {token}, clients := Broadcast(y.clients)) else y
    case Forget(token) => y.(clients := y.clients - {token})
  }

  ghost predicate ClientOk(y: System, t: Token) {
    && t in y.clients
    && (y.clients[t].gone ==> y.clients[t].phase.Trying? || y.clients[t].phase.Leaving?)
    && match y.clients[t].phase
    case Trying(now, seen, dirty) =>
      && (now.Some? ==> now.value <= y.clock)
      && (seen.Some? && !dirty ==> seen.value == y.tokens)
    case Granted(claimed) => true
    case Calling(claimed, start) => claimed <= start <= y.clock <= CallEnd(y.clients[t])
    case Leaving => true
  }

  /** `timeout_sec` is not negative. */
  ghost predicate Patient(y: System) {
    forall t | t in y.clients :: y.clients[t].timeout >= 0.0
  }

  ghost predicate SystemOk(limit: nat, y: System) {
    && |y.tokens| <= limit
    && Patient(y)
    && (forall t | t in y.clients :: ClientOk(y, t))
  }

  lemma BroadcastOk(y: System, z: System, t: Token)
    requires ClientOk(y, t) && z.clock == y.clock && t in z.clients && z.clients[t] == Dirtied(y.clients[t])
    ensures ClientOk(z, t)
  {}

  lemma MoveKeepsSystem(limit: nat, y: System, m: Move)
    requires SystemOk(limit, y) && Can(y, m) && Timely(y)
    ensures SystemOk(limit, Next(limit, y, m))
    ensures Timely(Next(limit, y, m))
  {
    hide ClientOk, Grant, Current;
    var z := Next(limit, y, m);
    match m
    case Execute(token) =>
      var c := y.clients[token];
      if Succeeds(limit, c.phase) {
        ExecuteOk(limit, y, token);
      }
    case Release(token) =>
      RemovalSize(y.tokens, token);
      if token in y.tokens {
        forall t | t in z.clients ensures ClientOk(z, t) { BroadcastOk(y, z, t); }
      }
      assert forall t | t in z.clients && z.clients[t].phase.Granted? :: y.clients[t].phase.Granted?;
    case _ =>
      OthersOk(limit, y, m);
  }

  /** A granted claim was made at a time that has passed. */
  ghost predicate Timely(y: System) {
    forall t | t in y.clients && y.clients[t].phase.Granted? :: y.clients[t].phase.claimed <= y.clock
  }

  lemma ExecuteOk(limit: nat, y: System, token: Token)
    requires SystemOk(limit, y) && Can(y, Execute(token)) && Succeeds(limit, y.clients[token].phase) && Timely(y)
    ensures SystemOk(limit, Next(limit, y, Execute(token))) && Timely(Next(limit, y, Execute(token)))
  {
    var z := Next(limit, y, Execute(token));
    var c := y.clients[token];
    assert ClientOk(y, token);
    GrantSize(y.tokens, token, c.phase.now.value, c.timeout + LEASE_MARGIN, limit);
    forall t | t in z.clients && t != token ensures ClientOk(z, t) { BroadcastOk(y, z, t); }
  }

  lemma OthersOk(limit: nat, y: System, m: Move)
    requires SystemOk(limit, y) && Can(y, m) && Timely(y) && !m.Execute? && !m.Release?
    ensures SystemOk(limit, Next(limit, y, m)) && Timely(Next(limit, y, m))
  {
    var z := Next(limit, y, m);
    forall t | t in z.clients ensures ClientOk(z, t) {
      if t in y.clients { assert ClientOk(y, t); }
    }
  }

  ghost predicate History(limit: nat, y: System, moves: seq<Move>)
    decreases |moves|
  {
    moves == [] || (Can(y, moves[0]) && History(limit, Next(limit, y, moves[0]), moves[1..]))
  }

  ghost function Outcome(limit: nat, y: System, moves: seq<Move>): System
    requires History(limit, y, moves)
    decreases |moves|
  {
    if moves == [] then y else Outcome(limit, Next(limit, y, moves[0]), moves[1..])
  }

  const OPEN := System(map[], 0.0, map[])

  lemma {:induction false} HistoryKeepsSystem(limit: nat, y: System, moves: seq<Move>)
    requires SystemOk(limit, y) && Timely(y) && History(limit, y, moves)
    ensures SystemOk(limit, Outcome(limit, y, moves))
    decreases |moves|
  {
    hide SystemOk, Can, Next, Timely;
    if moves != [] {
      MoveKeepsSystem(limit, y, moves[0]);
      HistoryKeepsSystem(limit, Next(limit, y, moves[0]), moves[1..]);
    }
  }

  /** Under any interleaving, expiry or lost response, the gate never holds more than `limit` tokens. */
  lemma NeverOverLimit(limit: nat, moves: seq<Move>)
    requires History(limit, OPEN, moves)
    ensures |Outcome(limit, OPEN, moves).tokens| <= limit
  {
    HistoryKeepsSystem(limit, OPEN, moves);
  }

  // ---------- At most `limit` calls at once

  /** Every call of the history starts less than `delay` after its claim. */
  ghost predicate Prompt(limit: nat, y: System, moves: seq<Move>, delay: real)
    requires History(limit, y, moves)
    decreases |moves|
  {
    moves == []
    || (&& (moves[0].Begin? ==> y.clock < y.clients[moves[0].token].phase.claimed + delay)
        && Prompt(limit, Next(limit, y, moves[0]), moves[1..], delay))
  }

  function CallsOf(y: System): set<Token> {
    set t | t in y.clients && y.clients[t].phase.Calling?
  }

  /** Tokens of granted and calling clients, unless their lease may already have run out. */
  ghost predicate Covered(y: System, t: Token)
    requires t in y.clients
  {
    match y.clients[t].phase
    case Granted(claimed) =>
      y.clock < claimed + CALL_GRACE ==>
        t in y.tokens && y.tokens[t] == claimed + y.clients[t].timeout + LEASE_MARGIN
    case Calling(claimed, start) =>
      && start < claimed + CALL_GRACE
      && t in y.tokens && y.tokens[t] == claimed + y.clients[t].timeout + LEASE_MARGIN
    case _ => true
  }

  ghost predicate AllCovered(y: System) {
    forall t | t in y.clients :: Covered(y, t)
  }

  lemma MoveKeepsCovered(limit: nat, y: System, m: Move)
    requires SystemOk(limit, y) && Timely(y) && AllCovered(y) && Can(y, m)
    requires m.Begin? ==> y.clock < y.clients[m.token].phase.claimed + CALL_GRACE
    ensures AllCovered(Next(limit, y, m))
  {
    hide Current;
    var z := Next(limit, y, m);
    if m.Execute? && Succeeds(limit, y.clients[m.token].phase) {
      var now := y.clients[m.token].phase.now.value;
      assert ClientOk(y, m.token);
      forall t | t in z.clients && t != m.token ensures Covered(z, t) {
        assert Covered(y, t) && ClientOk(y, t);
        assert z.clients[t] == Dirtied(y.clients[t]);
      }
    } else {
      forall t | t in z.clients ensures Covered(z, t) {
        if t in y.clients { assert Covered(y, t) && ClientOk(y, t); }
      }
    }
  }

  lemma {:induction false} PromptKeepsCovered(limit: nat, y: System, moves: seq<Move>, delay: real)
    requires SystemOk(limit, y) && Timely(y) && AllCovered(y) && History(limit, y, moves)
    requires Prompt(limit, y, moves, delay) && delay <= CALL_GRACE
    ensures AllCovered(Outcome(limit, y, moves)) && SystemOk(limit, Outcome(limit, y, moves))
    decreases |moves|
  {
    hide SystemOk, Can, Next, Timely, AllCovered;
    if moves != [] {
      MoveKeepsSystem(limit, y, moves[0]);
      MoveKeepsCovered(limit, y, moves[0]);
      PromptKeepsCovered(limit, Next(limit, y, moves[0]), moves[1..], delay);
    }
  }

  /** If every call starts less than 5 seconds after its claim, at most `limit` calls ever run at once. */
  lemma CallsWithinLimit(limit: nat, moves: seq<Move>, delay: real)
    requires History(limit, OPEN, moves) && Prompt(limit, OPEN, moves, delay) && delay <= CALL_GRACE
    ensures |CallsOf(Outcome(limit, OPEN, moves))| <= limit
  {
    PromptKeepsCovered(limit, OPEN, moves, delay);
    var y := Outcome(limit, OPEN, moves);
    forall t | t in CallsOf(y) ensures t in y.tokens.Keys { assert Covered(y, t); }
    SubsetSize(CallsOf(y), y.tokens.Keys);
  }

  // ---------- The delay cannot be longer

  predicate AllFor(moves: seq<Move>, timeout: real) {
    forall i | 0 <= i < |moves| && moves[i].Arrive? :: moves[i].timeout == timeout
  }

  /** These moves lead from `y` to `z`, with prompt starts and one timeout for all calls. */
  ghost predicate Leads(limit: nat, delay: real, timeout: real, y: System, moves: seq<Move>, z: System) {
    && History(limit, y, moves) && Prompt(limit, y, moves, delay) && Outcome(limit, y, moves) == z
    && AllFor(moves, timeout)
  }

  lemma LeadsNowhere(limit: nat, delay: real, timeout: real, y: System)
    ensures Leads(limit, delay, timeout, y, [], y)
  {}

  lemma LeadsStep(limit: nat, delay: real, timeout: real, y: System, m: Move, x: System, rest: seq<Move>, z: System)
    requires Can(y, m) && Next(limit, y, m) == x && Leads(limit, delay, timeout, x, rest, z)
    requires m.Begin? ==> y.clock < y.clients[m.token].phase.claimed + delay
    requires m.Arrive? ==> m.timeout == timeout
    ensures Leads(limit, delay, timeout, y, [m] + rest, z)
  {
    hide Can, Next;
    var moves := [m] + rest;
    assert moves[0] == m && moves[1..] == rest;
  }

  lemma LeadsOnce(limit: nat, delay: real, timeout: real, y: System, m: Move, z: System)
    requires Can(y, m) && Next(limit, y, m) == z
    requires m.Begin? ==> y.clock < y.clients[m.token].phase.claimed + delay
    requires m.Arrive? ==> m.timeout == timeout
    ensures Leads(limit, delay, timeout, y, [m], z)
  {
    hide Can, Next;
    LeadsNowhere(limit, delay, timeout, z);
    LeadsStep(limit, delay, timeout, y, m, z, [], z);
    assert [m] + [] == [m];
  }

  lemma {:induction false} LeadsOn(limit: nat, delay: real, timeout: real, y: System, first: seq<Move>, x: System,
                                   rest: seq<Move>, z: System)
    requires Leads(limit, delay, timeout, y, first, x) && Leads(limit, delay, timeout, x, rest, z)
    ensures Leads(limit, delay, timeout, y, first + rest, z)
    decreases |first|
  {
    hide Can, Next;
    if first == [] {
      assert first + rest == rest;
    } else {
      var w := Next(limit, y, first[0]);
      LeadsOn(limit, delay, timeout, w, first[1..], x, rest, z);
      LeadsStep(limit, delay, timeout, y, first[0], w, first[1..] + rest, z);
      assert first + rest == [first[0]] + (first[1..] + rest);
    }
  }

  /** Arrive, watch, read the time and the set, and add the token. */
  function Entry(token: Token, timeout: real): seq<Move> {
    [Arrive(token, timeout)] + [ReadTime(token)] + [ReadSet(token)] + [Execute(token)]
  }

  ghost predicate NoneTrying(y: System) {
    forall t | t in y.clients :: !y.clients[t].phase.Trying?
  }

  function Entered(y: System, token: Token, timeout: real): System {
    System(Grant(y.tokens, token, y.clock, timeout + LEASE_MARGIN), y.clock,
           y.clients[token := Client(timeout, Granted(y.clock), false)])
  }

  /** With no one else at the key and room in it, a client that enters is granted a token. */
  lemma EntryGrants(limit: nat, delay: real, timeout: real, y: System, token: Token)
    requires token !in y.clients && token !in y.tokens && timeout >= 0.0
    requires |Current(y.tokens, y.clock)| < limit && NoneTrying(y)
    ensures Leads(limit, delay, timeout, y, Entry(token, timeout), Entered(y, token, timeout))
  {
    hide Current, Leads;
    var y1 := y.(clients := y.clients[token := Client(timeout, Trying(None, None, false), false)]);
    var y2 := y.(clients := y.clients[token := Client(timeout, Trying(Some(y.clock), None, false), false)]);
    var y3 := y.(clients := y.clients[token := Client(timeout, Trying(Some(y.clock), Some(y.tokens), false), false)]);
    LeadsOnce(limit, delay, timeout, y, Arrive(token, timeout), y1);
    LeadsOnce(limit, delay, timeout, y1, ReadTime(token), y2);
    LeadsOnce(limit, delay, timeout, y2, ReadSet(token), y3);
    ExecuteGrants(limit, y, token, timeout);
    LeadsOnce(limit, delay, timeout, y3, Execute(token), Entered(y, token, timeout));
    LeadsOn(limit, delay, timeout, y, [Arrive(token, timeout)], y1, [ReadTime(token)], y2);
    LeadsOn(limit, delay, timeout, y, [Arrive(token, timeout)] + [ReadTime(token)], y2, [ReadSet(token)], y3);
    LeadsOn(limit, delay, timeout, y, [Arrive(token, timeout)] + [ReadTime(token)] + [ReadSet(token)], y3,
            [Execute(token)], Entered(y, token, timeout));
  }

  lemma ExecuteGrants(limit: nat, y: System, token: Token, timeout: real)
    requires token !in y.clients && token !in y.tokens && |Current(y.tokens, y.clock)| < limit && NoneTrying(y)
    ensures var x := y.(clients := y.clients[token := Client(timeout, Trying(Some(y.clock), Some(y.tokens), false), false)]);
            Can(x, Execute(token)) && Next(limit, x, Execute(token)) == Entered(y, token, timeout)
  {
    hide Current;
    var x := y.(clients := y.clients[token := Client(timeout, Trying(Some(y.clock), Some(y.tokens), false), false)]);
    assert Broadcast(x.clients)[token := Client(timeout, Granted(y.clock), false)]
           == y.clients[token := Client(timeout, Granted(y.clock), false)];
  }

  /** Distinct tokens. */
  function Name(i: nat): (t: Token)
    ensures |t| == i
  {
    seq(i, k => 'a')
  }

  function Names(n: nat): set<Token> {
    set i: nat | i < n :: Name(i)
  }

  lemma {:induction false} NamesGrow(n: nat)
    ensures Names(n + 1) == Names(n) + {Name(n)} && Name(n) !in Names(n) && |Names(n)| == n
    decreases n
  {
    assert Names(n + 1) == Names(n) + {Name(n)} by {
      forall t ensures t in Names(n + 1) <==> t in Names(n) + {Name(n)} {
        if t == Name(n) { assert Name(n) in Names(n + 1); }
      }
    }
    if n > 0 { NamesGrow(n - 1); } else { assert Names(0) == {}; }
  }

  /** n tokens claimed at time 0; the first k of their clients have begun their calls at `begun`. */
  function Crowd(n: nat, k: nat, timeout: real, clock: real, begun: real): System {
    System(map t | t in Names(n) :: timeout + LEASE_MARGIN, clock,
           map t | t in Names(n) :: Client(timeout, if |t| < k then Calling(0.0, begun) else Granted(0.0), false))
  }

  function Entries(n: nat, timeout: real): seq<Move> {
    if n == 0 then [] else Entries(n - 1, timeout) + Entry(Name(n - 1), timeout)
  }

  lemma {:induction false} EntriesLead(limit: nat, delay: real, timeout: real, n: nat)
    requires n <= limit && timeout >= 0.0
    ensures Leads(limit, delay, timeout, OPEN, Entries(n, timeout), Crowd(n, 0, timeout, 0.0, CALL_GRACE))
    decreases n
  {
    hide Leads, Crowd, Entered, Entry, Current, NoneTrying;
    if n == 0 {
      LeadsNowhere(limit, delay, timeout, OPEN);
      NoCrowd(timeout);
    } else {
      EntriesLead(limit, delay, timeout, n - 1);
      var y := Crowd(n - 1, 0, timeout, 0.0, CALL_GRACE);
      CrowdHasRoom(n - 1, timeout);
      EntryGrants(limit, delay, timeout, y, Name(n - 1));
      CrowdGrows(n - 1, timeout);
      LeadsOn(limit, delay, timeout, OPEN, Entries(n - 1, timeout), y, Entry(Name(n - 1), timeout),
              Crowd(n, 0, timeout, 0.0, CALL_GRACE));
    }
  }

  lemma NoCrowd(timeout: real)
    ensures Crowd(0, 0, timeout, 0.0, CALL_GRACE) == OPEN
  {
    assert Names(0) == {};
  }

  lemma CrowdHasRoom(n: nat, timeout: real)
    requires timeout >= 0.0
    ensures var y := Crowd(n, 0, timeout, 0.0, CALL_GRACE);
            && y.clock == 0.0 && Name(n) !in y.clients && Name(n) !in y.tokens
            && |Current(y.tokens, 0.0)| == n && NoneTrying(y)
  {
    NamesGrow(n);
    assert Current(Crowd(n, 0, timeout, 0.0, CALL_GRACE).tokens, 0.0) == Names(n);
  }

  lemma CrowdGrows(n: nat, timeout: real)
    requires timeout >= 0.0
    ensures Entered(Crowd(n, 0, timeout, 0.0, CALL_GRACE), Name(n), timeout) == Crowd(n + 1, 0, timeout, 0.0, CALL_GRACE)
  {
    NamesGrow(n);
    var y, z := Crowd(n, 0, timeout, 0.0, CALL_GRACE), Crowd(n + 1, 0, timeout, 0.0, CALL_GRACE);
    assert Entered(y, Name(n), timeout).tokens == z.tokens;
    assert Entered(y, Name(n), timeout).clients == z.clients;
  }

  function Begins(k: nat): seq<Move> {
    if k == 0 then [] else Begins(k - 1) + [Begin(Name(k - 1))]
  }

  lemma {:induction false} BeginsLead(limit: nat, delay: real, timeout: real, n: nat, k: nat)
    requires k <= n && CALL_GRACE < delay
    ensures Leads(limit, delay, timeout, Crowd(n, 0, timeout, CALL_GRACE, CALL_GRACE), Begins(k),
                  Crowd(n, k, timeout, CALL_GRACE, CALL_GRACE))
    decreases k
  {
    hide Leads;
    var start := Crowd(n, 0, timeout, CALL_GRACE, CALL_GRACE);
    if k == 0 {
      LeadsNowhere(limit, delay, timeout, start);
    } else {
      BeginsLead(limit, delay, timeout, n, k - 1);
      var y, z := Crowd(n, k - 1, timeout, CALL_GRACE, CALL_GRACE), Crowd(n, k, timeout, CALL_GRACE, CALL_GRACE);
      OneBegins(n, k - 1, timeout);
      LeadsOnce(limit, delay, timeout, y, Begin(Name(k - 1)), z);
      LeadsOn(limit, delay, timeout, start, Begins(k - 1), y, [Begin(Name(k - 1))], z);
    }
  }

  lemma OneBegins(n: nat, k: nat, timeout: real)
    requires k < n
    ensures var y := Crowd(n, k, timeout, CALL_GRACE, CALL_GRACE);
            && Name(k) in y.clients && y.clients[Name(k)].phase == Granted(0.0)
            && y.(clients := y.clients[Name(k) := y.clients[Name(k)].(phase := Calling(0.0, CALL_GRACE))])
               == Crowd(n, k + 1, timeout, CALL_GRACE, CALL_GRACE)
  {
    var y, z := Crowd(n, k, timeout, CALL_GRACE, CALL_GRACE), Crowd(n, k + 1, timeout, CALL_GRACE, CALL_GRACE);
    assert Name(k) in Names(n);
    forall t | t in Names(n) && t != Name(k) ensures |t| != k {
      var i: nat :| i < n && t == Name(i);
    }
    assert y.clients[Name(k) := y.clients[Name(k)].(phase := Calling(0.0, CALL_GRACE))] == z.clients;
  }

  /** Wait until 5, begin every call, stay in them until their tokens run out at timeout + 10, and let one more in. */
  function Overrun(limit: nat, timeout: real): seq<Move> {
    Entries(limit, timeout) + [Tick(CALL_GRACE)] + Begins(limit) + [Tick(timeout + LEASE_MARGIN)]
    + Entry(Name(limit), timeout) + [Begin(Name(limit))]
  }

  /** With any longer delay, for every limit and timeout, some history has one call too many. */
  lemma LateStartsOverrun(limit: nat, timeout: real, delay: real)
    requires limit >= 1 && timeout >= 0.0 && delay > CALL_GRACE
    ensures History(limit, OPEN, Overrun(limit, timeout)) && Prompt(limit, OPEN, Overrun(limit, timeout), delay)
    ensures AllFor(Overrun(limit, timeout), timeout)
    ensures |CallsOf(Outcome(limit, OPEN, Overrun(limit, timeout)))| == limit + 1
  {
    var y0 := Crowd(limit, 0, timeout, 0.0, CALL_GRACE);
    var y1 := Crowd(limit, 0, timeout, CALL_GRACE, CALL_GRACE);
    var y2 := Crowd(limit, limit, timeout, CALL_GRACE, CALL_GRACE);
    var y3 := Crowd(limit, limit, timeout, timeout + LEASE_MARGIN, CALL_GRACE);
    var y4 := Entered(y3, Name(limit), timeout);
    var y5 := Next(limit, y4, Begin(Name(limit)));
    OverrunLeads(limit, timeout, delay, y0, y1, y2, y3, y4, y5);
    NamesGrow(limit);
    NamesGrow(limit + 1);
    assert CallsOf(y5) == Names(limit + 1);
  }

  lemma OverrunLeads(limit: nat, timeout: real, delay: real, y0: System, y1: System, y2: System, y3: System,
                     y4: System, y5: System)
    requires limit >= 1 && timeout >= 0.0 && delay > CALL_GRACE
    requires y0 == Crowd(limit, 0, timeout, 0.0, CALL_GRACE)
    requires y1 == Crowd(limit, 0, timeout, CALL_GRACE, CALL_GRACE)
    requires y2 == Crowd(limit, limit, timeout, CALL_GRACE, CALL_GRACE)
    requires y3 == Crowd(limit, limit, timeout, timeout + LEASE_MARGIN, CALL_GRACE)
    requires y4 == Entered(y3, Name(limit), timeout) && y5 == Next(limit, y4, Begin(Name(limit)))
    ensures Leads(limit, delay, timeout, OPEN, Overrun(limit, timeout), y5)
  {
    hide Leads;
    EntriesLead(limit, delay, timeout, limit);
    LeadsOnce(limit, delay, timeout, y0, Tick(CALL_GRACE), y1);
    BeginsLead(limit, delay, timeout, limit, limit);
    LeadsOnce(limit, delay, timeout, y2, Tick(timeout + LEASE_MARGIN), y3);
    NamesGrow(limit);
    assert Current(y3.tokens, y3.clock) == {};
    EntryGrants(limit, delay, timeout, y3, Name(limit));
    LeadsOnce(limit, delay, timeout, y4, Begin(Name(limit)), y5);
    var m0 := Entries(limit, timeout);
    var m1 := m0 + [Tick(CALL_GRACE)];
    var m2 := m1 + Begins(limit);
    var m3 := m2 + [Tick(timeout + LEASE_MARGIN)];
    var m4 := m3 + Entry(Name(limit), timeout);
    LeadsOn(limit, delay, timeout, OPEN, m0, y0, [Tick(CALL_GRACE)], y1);
    LeadsOn(limit, delay, timeout, OPEN, m1, y1, Begins(limit), y2);
    LeadsOn(limit, delay, timeout, OPEN, m2, y2, [Tick(timeout + LEASE_MARGIN)], y3);
    LeadsOn(limit, delay, timeout, OPEN, m3, y3, Entry(Name(limit), timeout), y4);
    LeadsOn(limit, delay, timeout, OPEN, m4, y4, [Begin(Name(limit))], y5);
  }

  /** Every history of calls with this timeout that start within the delay keeps to the limit. */
  ghost predicate KeepsLimit(limit: nat, timeout: real, delay: real) {
    forall moves | History(limit, OPEN, moves) && Prompt(limit, OPEN, moves, delay) && AllFor(moves, timeout) ::
      |CallsOf(Outcome(limit, OPEN, moves))| <= limit
  }

  /** The exact condition, for every limit and timeout: calls start less than some delay of at most 5 seconds. */
  lemma ExactDelay(limit: nat, timeout: real, delay: real)
    requires limit >= 1 && timeout >= 0.0
    ensures KeepsLimit(limit, timeout, delay) <==> delay <= CALL_GRACE
  {
    hide History, Prompt, Outcome, CallsOf, AllFor, Overrun;
    if delay <= CALL_GRACE {
      forall moves | History(limit, OPEN, moves) && Prompt(limit, OPEN, moves, delay) && AllFor(moves, timeout)
        ensures |CallsOf(Outcome(limit, OPEN, moves))| <= limit
      {
        CallsWithinLimit(limit, moves, delay);
      }
    } else {
      LateStartsOverrun(limit, timeout, delay);
    }
  }
}
