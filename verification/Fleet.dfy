/** Several relays at once, each living its own life: their turns interleave with each other and
    with what operators do, between the two transactions of any of them. Whatever the order,
    each relay's life is one its main loop can live, and together they are one run of the
    protocol, so what holds of every run holds of them. */
module Fleet {
  import opened Types
  import opened Engine
  import opened Selector
  import opened Protocol
  import opened Cycle
  import opened Lifetime
  import opened Turns
  import Replay
  import NoLoss
  import RetryBound

  /** What a relay is doing. Between its two transactions it is busy with a turn; `claimed` is
      its life by then. It stops when its main loop ends. */
  datatype Work = Free | Busy(turn: Turn, claimed: Life, outcome: Outcome) | Stopped

  /** A relay: the turns it has finished, its life up to the last of them, and its work. */
  datatype Member = Member(script: seq<Turn>, life: Life, work: Work)

  datatype Fleet = Fleet(
    tables: Tables,
    now: real,
    members: seq<Member>,
    enqueued: map<nat, Payload>,
    accepted: set<nat>,
    purged: set<nat>)

  /** A relay begins a turn, ends it, or is killed and started again; or somebody else acts. */
  datatype Move =
    | Opens(relay: nat, turn: Turn)
    | Closes(relay: nat)
    | Dies(relay: nat)
    | Others(action: Action)

  const EMPTY := Tables(map[], map[], 0, 0)
  const NEWBORN := Member([], Born(EMPTY), Free)

  function Begin(k: nat, now: real): Fleet {
    Fleet(EMPTY, now, seq(k, _ => NEWBORN), map[], {}, {})
  }

  predicate IsOthers(a: Action) {
    a.Enqueue? || a.ReplayDead? || a.ResetRetries? || a.Purge? || a.Tick?
  }

  ghost predicate CanMove(cfg: Config, f: Fleet, mv: Move) {
    match mv
    case Opens(r, e) => r < |f.members| && f.members[r].work.Free? && Jittery(cfg, e)
    case Closes(r) => r < |f.members| && f.members[r].work.Busy?
    case Dies(r) => r < |f.members|
    case Others(a) => IsOthers(a) && (a.Enqueue? ==> a.payload.ticket !in f.enqueued) && (a.Tick? ==> a.seconds >= 0.0)
  }

  /** The turn as it meets the tables and the time of the fleet. */
  function Met(e: Turn, t: Tables, now: real): Turn {
    e.(before := _ => t, checkAt := now, claimAt := now)
  }

  /** Its second transaction, likewise. */
  function Ended(e: Turn, t: Tables, now: real): Turn {
    e.(between := _ => t, commitAt := now)
  }

  ghost function Opened(cfg: Config, m: Member, e: Turn): Member
    requires cfg.Valid()
  {
    var (here, goes) := Guarded(cfg, e, m.life);
    if !goes then m.(life := here, work := Stopped)
    else if !Works(cfg, e, here) then Member(m.script + [e], Processed(cfg, e, here), Free)
    else m.(work := Busy(e, Claimed(cfg, e, here), TurnOutcome(cfg, e, here)))
  }

  function Closed(cfg: Config, m: Member, t: Tables, now: real): Member
    requires m.work.Busy?
  {
    var e := Ended(m.work.turn, t, now);
    Member(m.script + [e], m.work.claimed.(tables := Committed(cfg, e, t, m.work.outcome)), Free)
  }

  /** The tasks the broker takes during the first half of a turn. */
  ghost function TakenBy(cfg: Config, f: Fleet, work: Work): set<nat> {
    if !work.Busy? then {}
    else TakenFrom(Selected(f.tables, work.turn.locked, cfg.staleTimeout, f.now, cfg.batchSize), work.outcome.attempts,
                   0)
  }

  ghost function Moved(cfg: Config, f: Fleet, mv: Move): Fleet
    requires cfg.Valid() && CanMove(cfg, f, mv)
  {
    match mv
    case Opens(r, e) =>
      var m := Opened(cfg, f.members[r], Met(e, f.tables, f.now));
      f.(members := f.members[r := m],
         tables := if m.work.Busy? then m.work.claimed.tables else f.tables,
         accepted := f.accepted + TakenBy(cfg, f, m.work))
    case Closes(r) =>
      var m := Closed(cfg, f.members[r], f.tables, f.now);
      f.(members := f.members[r := m], tables := m.life.tables)
    case Dies(r) =>
      f.(members := f.members[r := NEWBORN])
    case Others(a) =>
      match a
      case Enqueue(p) => f.(tables := AfterEnqueue(f.tables, f.now, p), enqueued := f.enqueued[p.ticket := p])
      case ReplayDead(ids, limit) => f.(tables := Replay.AfterReplay(f.tables, ids, limit, f.now))
      case ResetRetries(ids) => f.(tables := AfterReset(f.tables, ids))
      case Purge(ids) =>
        f.(tables := AfterPurge(f.tables, ids),
           purged := f.purged + set id | id in f.tables.dead && id in ids :: f.tables.dead[id].payload.ticket)
      case Tick(seconds) => f.(now := f.now + seconds)
      case _ => f
  }

  ghost predicate CanMoveAll(cfg: Config, f: Fleet, moves: seq<Move>)
    requires cfg.Valid()
    decreases |moves|
  {
    moves == [] || (CanMove(cfg, f, moves[0]) && CanMoveAll(cfg, Moved(cfg, f, moves[0]), moves[1..]))
  }

  ghost function MovedAll(cfg: Config, f: Fleet, moves: seq<Move>): Fleet
    requires cfg.Valid() && CanMoveAll(cfg, f, moves)
    decreases |moves|
  {
    if moves == [] then f else MovedAll(cfg, Moved(cfg, f, moves[0]), moves[1..])
  }

  // ---- Each relay lives a life of its main loop -----------------------------------------------

  /** A free relay has lived its script; a busy one has opened its next turn; the guard of a
      stopped one did not let it go on. */
  ghost predicate LivesItsScript(cfg: Config, m: Member)
    requires cfg.Valid()
  {
    match m.work
    case Free => Alive(cfg, m.script, Born(EMPTY)) && m.life == Lived(cfg, m.script, Born(EMPTY))
    case Busy(e, c, o) =>
      && Alive(cfg, m.script, Born(EMPTY)) && m.life == Lived(cfg, m.script, Born(EMPTY))
      && Guarded(cfg, e, m.life).1
      && var here := Guarded(cfg, e, m.life).0;
         Works(cfg, e, here) && c == Claimed(cfg, e, here) && o == TurnOutcome(cfg, e, here)
    case Stopped => exists e :: m.life == Lived(cfg, m.script + [e], Born(EMPTY))
  }

  lemma {:induction false} OpenedLives(cfg: Config, m: Member, e: Turn)
    requires cfg.Valid() && m.work.Free? && LivesItsScript(cfg, m)
    ensures LivesItsScript(cfg, Opened(cfg, m, e))
  {
    LivedAppend(cfg, m.script, [e], Born(EMPTY));
    var (here, goes) := Guarded(cfg, e, m.life);
    if goes {
      OneTurn(cfg, e, m.life);
    } else {
      FirstTurn(cfg, e, [], m.life);
      assert [e] + [] == [e];
      assert Opened(cfg, m, e).life == Lived(cfg, m.script + [e], Born(EMPTY));
    }
  }

  lemma {:induction false} ClosedLives(cfg: Config, m: Member, t: Tables, now: real)
    requires cfg.Valid() && m.work.Busy? && LivesItsScript(cfg, m)
    ensures LivesItsScript(cfg, Closed(cfg, m, t, now))
  {
    var e := Ended(m.work.turn, t, now);
    LivedAppend(cfg, m.script, [e], Born(EMPTY));
    EndedSame(cfg, m.work.turn, m.life, t, now);
    OneTurn(cfg, e, m.life);
  }

  /** The first half of a turn does not depend on what the second one meets. */
  lemma {:induction false} EndedSame(cfg: Config, e: Turn, life: Life, t: Tables, now: real)
    requires cfg.Valid()
    ensures var e' := Ended(e, t, now);
            && Guarded(cfg, e', life) == Guarded(cfg, e, life)
            && var here := Guarded(cfg, e, life).0;
               && Works(cfg, e', here) == Works(cfg, e, here)
               && Claimed(cfg, e', here) == Claimed(cfg, e, here)
               && TurnOutcome(cfg, e', here) == TurnOutcome(cfg, e, here)
  {
  }

  ghost predicate AllLive(cfg: Config, f: Fleet)
    requires cfg.Valid()
  {
    forall r :: 0 <= r < |f.members| ==> LivesItsScript(cfg, f.members[r])
  }

  lemma {:induction false} MoveLives(cfg: Config, f: Fleet, mv: Move)
    requires cfg.Valid() && CanMove(cfg, f, mv) && AllLive(cfg, f)
    ensures AllLive(cfg, Moved(cfg, f, mv))
  {
    match mv
    case Opens(r, e) => OpenedLives(cfg, f.members[r], Met(e, f.tables, f.now));
    case Closes(r) => ClosedLives(cfg, f.members[r], f.tables, f.now);
    case Dies(_) => assert LivesItsScript(cfg, NEWBORN);
    case Others(_) =>
  }

  lemma {:induction false} MovesLive(cfg: Config, f: Fleet, moves: seq<Move>)
    requires cfg.Valid() && CanMoveAll(cfg, f, moves) && AllLive(cfg, f)
    ensures AllLive(cfg, MovedAll(cfg, f, moves))
    decreases |moves|
  {
    if moves != [] {
      MoveLives(cfg, f, moves[0]);
      MovesLive(cfg, Moved(cfg, f, moves[0]), moves[1..]);
    }
  }

  /** However their turns interleave, every relay's life is one its own main loop lives by its
      own script. */
  lemma {:induction false} EveryoneLives(cfg: Config, k: nat, now: real, moves: seq<Move>)
    requires cfg.Valid() && CanMoveAll(cfg, Begin(k, now), moves)
    ensures AllLive(cfg, MovedAll(cfg, Begin(k, now), moves))
  {
    assert LivesItsScript(cfg, NEWBORN);
    MovesLive(cfg, Begin(k, now), moves);
  }

  // ---- Together they are a run of the protocol ----------------------------------------------------

  ghost predicate SameWork(cfg: Config, work: Work, h: RelayState) {
    if work.Busy? then
      && h.Holding? && h.attempts == work.outcome.attempts
      && Lawful(cfg, h.batch, h.attempts, work.outcome.lists) && Jittery(cfg, work.turn)
    else h.Idle?
  }

  /** The fleet and the protocol's state are the same. */
  ghost predicate Agree(cfg: Config, f: Fleet, s: State) {
    && f.tables == s.tables && f.now == s.now && f.enqueued == s.enqueued && f.purged == s.purged
    && (forall ticket :: ticket in f.accepted <==> ticket in s.accepted)
    && |f.members| == |s.relays|
    && forall r :: 0 <= r < |f.members| ==> SameWork(cfg, f.members[r].work, s.relays[r])
  }

  lemma {:induction false} OpensRuns(cfg: Config, f: Fleet, r: nat, e: Turn, s: State) returns (run: seq<Action>)
    requires cfg.Valid() && CanMove(cfg, f, Opens(r, e)) && Agree(cfg, f, s) && Consistent(s)
    ensures CanAll(cfg, s, run) && Agree(cfg, Moved(cfg, f, Opens(r, e)), DoAll(cfg, s, run))
  {
    var e' := Met(e, f.tables, f.now);
    var m := Opened(cfg, f.members[r], e');
    if m.work.Busy? {
      var here := Guarded(cfg, e', f.members[r].life).0;
      assert here.tables == s.tables;
      TurnIsLawful(cfg, e', here);
      ClaimAndSends(cfg, e', s, r, m.work.outcome);
      run := FirstHalf(cfg, e', s, r, m.work.outcome);
      BusyAgrees(cfg, f, r, m, e, s, DoAll(cfg, s, run));
    } else {
      run := [];
    }
  }

  lemma {:induction false} BusyAgrees(cfg: Config, f: Fleet, r: nat, m: Member, e: Turn, s: State, s': State)
    requires cfg.Valid() && CanMove(cfg, f, Opens(r, e)) && Agree(cfg, f, s)
    requires m == Opened(cfg, f.members[r], Met(e, f.tables, f.now)) && m.work.Busy?
    requires var batch := Selected(s.tables, e.locked, cfg.staleTimeout, s.now, cfg.batchSize);
             && Lawful(cfg, batch, m.work.outcome.attempts, m.work.outcome.lists)
             && HalfDone(s, r, batch, m.work.outcome.attempts, s')
    ensures Agree(cfg, Moved(cfg, f, Opens(r, e)), s')
  {
    var f' := Moved(cfg, f, Opens(r, e));
    forall q | 0 <= q < |f'.members| ensures SameWork(cfg, f'.members[q].work, s'.relays[q]) {
      assert SameWork(cfg, f.members[q].work, s.relays[q]);
    }
  }

  lemma {:induction false} ClosesRuns(cfg: Config, f: Fleet, r: nat, s: State) returns (run: seq<Action>)
    requires cfg.Valid() && CanMove(cfg, f, Closes(r)) && Agree(cfg, f, s) && Consistent(s)
    ensures CanAll(cfg, s, run) && Agree(cfg, Moved(cfg, f, Closes(r)), DoAll(cfg, s, run))
  {
    var work := f.members[r].work;
    assert SameWork(cfg, work, s.relays[r]);
    if work.turn.fault == CommitFails {
      run := [Action.Crash(r)];
      CrashRuns(cfg, s, r);
    } else {
      run := [Action.Commit(r, work.outcome.lists, work.turn.Jitters(|work.outcome.lists.failed|))];
      CommitRuns(cfg, work.turn, s, r, work.outcome, s.relays[r].batch);
    }
    IdleAgrees(cfg, f, r, Moved(cfg, f, Closes(r)), s, DoAll(cfg, s, run));
  }

  lemma IdleAgrees(cfg: Config, f: Fleet, r: nat, f': Fleet, s: State, s': State)
    requires r < |f.members| && Agree(cfg, f, s)
    requires |f'.members| == |f.members| && !f'.members[r].work.Busy?
    requires forall q :: 0 <= q < |f.members| && q != r ==> f'.members[q] == f.members[q]
    requires s' == s.(tables := f'.tables, relays := s.relays[r := Idle])
    requires f' == f.(tables := f'.tables, members := f'.members)
    ensures Agree(cfg, f', s')
  {
    forall q | 0 <= q < |f'.members| ensures SameWork(cfg, f'.members[q].work, s'.relays[q]) {
      assert SameWork(cfg, f.members[q].work, s.relays[q]);
    }
  }

  lemma {:induction false} DiesRuns(cfg: Config, f: Fleet, r: nat, s: State) returns (run: seq<Action>)
    requires cfg.Valid() && CanMove(cfg, f, Dies(r)) && Agree(cfg, f, s)
    ensures CanAll(cfg, s, run) && Agree(cfg, Moved(cfg, f, Dies(r)), DoAll(cfg, s, run))
  {
    assert SameWork(cfg, f.members[r].work, s.relays[r]);
    if f.members[r].work.Busy? {
      run := [Action.Crash(r)];
      CrashRuns(cfg, s, r);
      IdleAgrees(cfg, f, r, Moved(cfg, f, Dies(r)), s, DoAll(cfg, s, run));
    } else {
      run := [];
      assert s == s.(tables := s.tables, relays := s.relays[r := Idle]);
      IdleAgrees(cfg, f, r, Moved(cfg, f, Dies(r)), s, s);
    }
  }

  lemma {:induction false} OthersRun(cfg: Config, f: Fleet, a: Action, s: State) returns (run: seq<Action>)
    requires cfg.Valid() && CanMove(cfg, f, Others(a)) && Agree(cfg, f, s)
    ensures CanAll(cfg, s, run) && Agree(cfg, Moved(cfg, f, Others(a)), DoAll(cfg, s, run))
  {
    run := [a];
    assert run[1..] == [] && CanAll(cfg, Do(cfg, s, a), []);
    var s' := Do(cfg, s, a);
    forall q | 0 <= q < |f.members| ensures SameWork(cfg, f.members[q].work, s'.relays[q]) {
      assert SameWork(cfg, f.members[q].work, s.relays[q]);
    }
  }

  /** Every move of the fleet is a run of the protocol. */
  lemma {:induction false} MoveRuns(cfg: Config, f: Fleet, mv: Move, s: State) returns (run: seq<Action>)
    requires cfg.Valid() && CanMove(cfg, f, mv) && Agree(cfg, f, s) && Consistent(s)
    ensures CanAll(cfg, s, run) && Agree(cfg, Moved(cfg, f, mv), DoAll(cfg, s, run))
  {
    match mv
    case Opens(r, e) => run := OpensRuns(cfg, f, r, e, s);
    case Closes(r) => run := ClosesRuns(cfg, f, r, s);
    case Dies(r) => run := DiesRuns(cfg, f, r, s);
    case Others(a) => run := OthersRun(cfg, f, a, s);
  }

  /** So are all its moves, in whatever order the relays make them. */
  lemma {:induction false} FleetIsAProtocolRun(cfg: Config, f: Fleet, moves: seq<Move>, s: State)
      returns (run: seq<Action>)
    requires cfg.Valid() && CanMoveAll(cfg, f, moves) && Agree(cfg, f, s) && Consistent(s)
    ensures CanAll(cfg, s, run) && Agree(cfg, MovedAll(cfg, f, moves), DoAll(cfg, s, run))
    decreases |moves|
  {
    run := [];
    if moves != [] {
      var first := MoveRuns(cfg, f, moves[0], s);
      RunConsistent(cfg, s, first);
      var rest := FleetIsAProtocolRun(cfg, Moved(cfg, f, moves[0]), moves[1..], DoAll(cfg, s, first));
      RunConcat(cfg, s, first, rest);
      run := first + rest;
    }
  }

  // ---- What that gives ------------------------------------------------------------------------------

  ghost predicate SomewhereSafe(f: Fleet, ticket: nat) {
    NoLoss.Stored(f.tables, ticket) || ticket in f.accepted || ticket in f.purged
  }

  /** Of any number of relays living their lives at once, killed and started again at any point,
      with operators at work: no task ever enqueued is lost, and every stored copy carries the
      payload that was enqueued. */
  lemma {:induction false} NoTaskIsLostByFleet(cfg: Config, k: nat, now: real, moves: seq<Move>)
    requires cfg.Valid() && CanMoveAll(cfg, Begin(k, now), moves)
    ensures var f := MovedAll(cfg, Begin(k, now), moves);
            && NoLoss.TablesOriginal(f.enqueued, f.tables)
            && forall ticket :: ticket in f.enqueued ==> SomewhereSafe(f, ticket)
  {
    StartConsistent(k, now);
    var run := FleetIsAProtocolRun(cfg, Begin(k, now), moves, Start(k, now));
    NoLoss.NoTaskIsLost(cfg, k, now, run);
    var f, s := MovedAll(cfg, Begin(k, now), moves), DoAll(cfg, Start(k, now), run);
    forall ticket | ticket in f.enqueued ensures SomewhereSafe(f, ticket) {
      assert NoLoss.AccountedFor(s, ticket);
    }
  }

  /** And no row of theirs is retried more than `max_retries + k - 2` times. */
  lemma {:induction false} FleetRetriesNeverExceed(cfg: Config, k: nat, now: real, moves: seq<Move>, id: nat)
    requires cfg.Valid() && k >= 1 && CanMoveAll(cfg, Begin(k, now), moves)
    requires id in MovedAll(cfg, Begin(k, now), moves).tables.outbox
    ensures MovedAll(cfg, Begin(k, now), moves).tables.outbox[id].retries <= cfg.maxRetries + k - 2
  {
    StartConsistent(k, now);
    var run := FleetIsAProtocolRun(cfg, Begin(k, now), moves, Start(k, now));
    RetryBound.RetriesNeverExceed(cfg, k, now, run, id);
  }
}
