/** A relay's turn is a run of the protocol: what is proved of every run holds of every relay
    whose batches go the way the batch loops make them go. */
module Turns {
  import opened Types
  import opened Engine
  import opened Backoff
  import opened Mutations
  import opened Selector
  import opened Protocol
  import opened Cycle

  /** The sends of a batch from its `i`-th message on. */
  ghost function Sends(r: nat, batch: seq<Row>, attempts: map<nat, Attempt>, i: nat): seq<Action>
    requires i <= |batch|
    decreases |batch| - i
  {
    if i == |batch| then []
    else (if batch[i].id in attempts then [Action.Publish(r, i, attempts[batch[i].id])] else [])
         + Sends(r, batch, attempts, i + 1)
  }

  /** `made` are the attempts at the messages before the `i`-th. */
  ghost predicate MadeUpTo(attempts: map<nat, Attempt>, batch: seq<Row>, i: nat, made: map<nat, Attempt>)
    requires i <= |batch|
  {
    && (forall id :: id in made ==> id in attempts && made[id] == attempts[id])
    && (forall k :: 0 <= k < |batch| && batch[k].id in attempts ==> (batch[k].id in made <==> k < i))
  }

  /** `s'` is `s` but for the log and for what relay `r` has tried. */
  ghost predicate OnlySent(s: State, s': State, r: nat, attempts: map<nat, Attempt>)
    requires Holds(s, r)
  {
    && s'.tables == s.tables && s'.now == s.now && s'.enqueued == s.enqueued && s'.purged == s.purged
    && s'.relays == s.relays[r := s.relays[r].(attempts := attempts)]
  }

  /** The tasks the broker takes of the batch from its `i`-th message on. */
  ghost function TakenFrom(batch: seq<Row>, attempts: map<nat, Attempt>, i: nat): set<nat> {
    set j | i <= j < |batch| && batch[j].id in attempts && attempts[batch[j].id].Accepted? :: batch[j].payload.ticket
  }

  ghost predicate LogGrows(s: State, s': State, taken: set<nat>) {
    forall ticket :: ticket in s'.accepted <==> ticket in s.accepted || ticket in taken
  }

  lemma TakenStep(batch: seq<Row>, attempts: map<nat, Attempt>, i: nat)
    requires i < |batch|
    ensures TakenFrom(batch, attempts, i)
            == TakenFrom(batch, attempts, i + 1)
               + if batch[i].id in attempts && attempts[batch[i].id].Accepted? then {batch[i].payload.ticket} else {}
  {
  }

  /** One send, as the first of a run. */
  lemma SendOne(cfg: Config, s: State, r: nat, attempts: map<nat, Attempt>, l: Lists, i: nat) returns (s1: State)
    requires Holds(s, r) && i < |s.relays[r].batch| && IncreasingIds(s.relays[r].batch)
    requires var batch := s.relays[r].batch;
             && Lawful(cfg, batch, attempts, l) && batch[i].id in attempts
             && MadeUpTo(attempts, batch, i, s.relays[r].attempts)
    ensures var batch := s.relays[r].batch;
            var made := s.relays[r].attempts[batch[i].id := attempts[batch[i].id]];
            OnlySent(s, s1, r, made) && MadeUpTo(attempts, batch, i + 1, made)
    ensures var m := s.relays[r].batch[i];
            LogGrows(s, s1, if attempts[m.id].Accepted? then {m.payload.ticket} else {})
    ensures forall run :: run != [] && run[0] == Action.Publish(r, i, attempts[s.relays[r].batch[i].id]) ==>
              (CanAll(cfg, s1, run[1..]) ==> CanAll(cfg, s, run) && DoAll(cfg, s, run) == DoAll(cfg, s1, run[1..]))
  {
    var batch := s.relays[r].batch;
    assert batch[i] in batch;
    assert Justified(cfg, attempts, l, batch[i]);
    s1 := Do(cfg, s, Action.Publish(r, i, attempts[batch[i].id]));
  }

  /** Sends may follow one another as the batch loop makes them, and leave all but the log. */
  lemma {:induction false} SendsRun(cfg: Config, s: State, r: nat, batch: seq<Row>, attempts: map<nat, Attempt>,
                                    l: Lists, i: nat)
    requires Holds(s, r) && s.relays[r].batch == batch && i <= |batch| && IncreasingIds(batch)
    requires Lawful(cfg, batch, attempts, l)
    requires MadeUpTo(attempts, batch, i, s.relays[r].attempts)
    ensures CanAll(cfg, s, Sends(r, batch, attempts, i))
    ensures OnlySent(s, DoAll(cfg, s, Sends(r, batch, attempts, i)), r, attempts)
    ensures LogGrows(s, DoAll(cfg, s, Sends(r, batch, attempts, i)), TakenFrom(batch, attempts, i))
    decreases |batch| - i
  {
    var run := Sends(r, batch, attempts, i);
    if i == |batch| {
      AllMade(batch, attempts, s.relays[r].attempts);
    } else if batch[i].id in attempts {
      var s1 := SendOne(cfg, s, r, attempts, l, i);
      assert run[0] == Action.Publish(r, i, attempts[batch[i].id]);
      assert run[1..] == Sends(r, batch, attempts, i + 1);
      SendsRun(cfg, s1, r, batch, attempts, l, i + 1);
      TakenStep(batch, attempts, i);
      SentTwice(s, s1, DoAll(cfg, s, run), r, s1.relays[r].attempts, attempts);
    } else {
      assert run == Sends(r, batch, attempts, i + 1);
      TakenStep(batch, attempts, i);
      SendsRun(cfg, s, r, batch, attempts, l, i + 1);
    }
  }

  lemma SentTwice(s: State, s1: State, s2: State, r: nat, a: map<nat, Attempt>, b: map<nat, Attempt>)
    requires Holds(s, r) && OnlySent(s, s1, r, a) && OnlySent(s1, s2, r, b)
    ensures OnlySent(s, s2, r, b)
  {
  }

  lemma AllMade(batch: seq<Row>, attempts: map<nat, Attempt>, made: map<nat, Attempt>)
    requires attempts.Keys <= (set m | m in batch :: m.id) && MadeUpTo(attempts, batch, |batch|, made)
    ensures made == attempts
  {
    forall id | id in attempts ensures id in made {
      assert id in attempts.Keys;
      var m :| m in batch && m.id == id;
      var k :| 0 <= k < |batch| && batch[k] == m;
    }
  }

  /** The action belongs to somebody else. */
  predicate NotBy(a: Action, r: nat) {
    match a
    case Claim(q, _) => q != r
    case Publish(q, _, _) => q != r
    case Commit(q, _, _) => q != r
    case Crash(q) => q != r
    case _ => true
  }

  lemma {:induction false} OthersLeaveIt(cfg: Config, s: State, run: seq<Action>, r: nat)
    requires CanAll(cfg, s, run) && r < |s.relays| && forall i :: 0 <= i < |run| ==> NotBy(run[i], r)
    ensures var s' := DoAll(cfg, s, run); |s'.relays| == |s.relays| && s'.relays[r] == s.relays[r]
    decreases |run|
  {
    if run != [] {
      OthersLeaveIt(cfg, Do(cfg, s, run[0]), run[1..], r);
    }
  }

  ghost predicate Jittery(cfg: Config, e: Turn) {
    forall n :: IsJitter(cfg, e.jitter(n))
  }

  /** The claim and the sends of relay `r`, once its batch comes to `o`. */
  ghost function FirstHalf(cfg: Config, e: Turn, s: State, r: nat, o: Outcome): seq<Action> {
    [Action.Claim(r, e.locked)]
    + Sends(r, Selected(s.tables, e.locked, cfg.staleTimeout, s.now, cfg.batchSize), o.attempts, 0)
  }

  /** The state after the claim of `batch` and its sends. */
  ghost predicate HalfDone(s: State, r: nat, batch: seq<Row>, attempts: map<nat, Attempt>, s': State)
    requires r < |s.relays|
  {
    && s'.tables == Stamped(s.tables, batch, s.now)
    && s'.relays == s.relays[r := Holding(s.now, batch, attempts)]
    && s'.now == s.now && s'.enqueued == s.enqueued && s'.purged == s.purged
    && LogGrows(s, s', TakenFrom(batch, attempts, 0))
  }

  lemma ClaimAndSends(cfg: Config, e: Turn, s: State, r: nat, o: Outcome)
    requires cfg.Valid() && Consistent(s) && r < |s.relays| && s.relays[r].Idle?
    requires Lawful(cfg, Selected(s.tables, e.locked, cfg.staleTimeout, s.now, cfg.batchSize), o.attempts, o.lists)
    ensures CanAll(cfg, s, FirstHalf(cfg, e, s, r, o))
    ensures HalfDone(s, r, Selected(s.tables, e.locked, cfg.staleTimeout, s.now, cfg.batchSize), o.attempts,
                     DoAll(cfg, s, FirstHalf(cfg, e, s, r, o)))
  {
    var batch := Selected(s.tables, e.locked, cfg.staleTimeout, s.now, cfg.batchSize);
    SelectedAreTheOldestFree(s.tables, e.locked, cfg.staleTimeout, s.now, cfg.batchSize);
    var run := FirstHalf(cfg, e, s, r, o);
    var s1 := ClaimFirst(cfg, s, r, e.locked, run);
    assert run[1..] == Sends(r, batch, o.attempts, 0);
    SendsRun(cfg, s1, r, batch, o.attempts, o.lists, 0);
    HalfDoneThen(s, r, batch, o.attempts, s1, DoAll(cfg, s1, run[1..]));
  }

  /** A claim, as the first of a run. */
  lemma {:induction false} ClaimFirst(cfg: Config, s: State, r: nat, locked: set<nat>, run: seq<Action>)
    returns (s1: State)
    requires r < |s.relays| && s.relays[r].Idle? && run != [] && run[0] == Action.Claim(r, locked)
    ensures var batch := Selected(s.tables, locked, cfg.staleTimeout, s.now, cfg.batchSize);
            s1 == s.(tables := Stamped(s.tables, batch, s.now),
                     relays := s.relays[r := Holding(s.now, batch, map[])])
    ensures CanAll(cfg, s1, run[1..]) ==> CanAll(cfg, s, run) && DoAll(cfg, s, run) == DoAll(cfg, s1, run[1..])
  {
    s1 := Do(cfg, s, run[0]);
  }

  lemma HalfDoneThen(s: State, r: nat, batch: seq<Row>, attempts: map<nat, Attempt>, s1: State, s2: State)
    requires r < |s.relays|
    requires s1 == s.(tables := Stamped(s.tables, batch, s.now), relays := s.relays[r := Holding(s.now, batch, map[])])
    requires OnlySent(s1, s2, r, attempts) && LogGrows(s1, s2, TakenFrom(batch, attempts, 0))
    ensures HalfDone(s, r, batch, attempts, s2)
  {
    assert s1.relays[r := Holding(s.now, batch, attempts)] == s.relays[r := Holding(s.now, batch, attempts)];
  }

  lemma ProcessedTables(cfg: Config, e: Turn, life: Life)
    requires cfg.Valid() && e.fault == NoFault
    requires Works(cfg, e, life)
    ensures var batch := Selected(life.tables, e.locked, cfg.staleTimeout, e.claimAt, cfg.batchSize);
            var l := TurnOutcome(cfg, e, life).lists;
            Processed(cfg, e, life).tables
            == Settle(cfg, e.between(Stamped(life.tables, batch, e.claimAt)), l, e.Jitters(|l.failed|), e.commitAt)
  {
  }

  lemma TurnIsLawful(cfg: Config, e: Turn, life: Life)
    requires cfg.Valid() && life.tables.Valid()
    ensures var batch := Selected(life.tables, e.locked, cfg.staleTimeout, e.claimAt, cfg.batchSize);
            var o := TurnOutcome(cfg, e, life);
            Lawful(cfg, batch, o.attempts, o.lists)
  {
    var batch := Selected(life.tables, e.locked, cfg.staleTimeout, e.claimAt, cfg.batchSize);
    var gated := Gated(cfg, e, life);
    SelectedAreTheOldestFree(life.tables, e.locked, cfg.staleTimeout, e.claimAt, cfg.batchSize);
    IncreasingIsUnique(batch);
    OutcomeIsLawful(cfg, e.world, batch, gated.policy, gated.readings);
  }

  /** The whole turn: relay `r`'s first half, the others' actions, relay `r`'s commit. */
  ghost function TurnRun(cfg: Config, e: Turn, s: State, r: nat, o: Outcome, others: seq<Action>): seq<Action> {
    FirstHalf(cfg, e, s, r, o) + others + [Action.Commit(r, o.lists, e.Jitters(|o.lists.failed|))]
  }

  /** What the others did between the two transactions is what the turn met there. */
  ghost predicate Meets(cfg: Config, e: Turn, s1: State, others: seq<Action>, r: nat) {
    && (forall i :: 0 <= i < |others| ==> NotBy(others[i], r))
    && CanAll(cfg, s1, others)
    && DoAll(cfg, s1, others).tables == e.between(s1.tables)
    && DoAll(cfg, s1, others).now == e.commitAt
  }

  /** A turn that works on a batch is the protocol's claim, its sends, whatever the others do
      meanwhile, and its commit; it leaves the tables as they do. */
  lemma TurnIsAProtocolRun(cfg: Config, e: Turn, life: Life, s: State, r: nat, others: seq<Action>)
    requires cfg.Valid() && Consistent(s) && r < |s.relays| && s.relays[r].Idle? && life.tables == s.tables
    requires e.fault == NoFault && Jittery(cfg, e) && e.claimAt == s.now
    requires Works(cfg, e, life)
    ensures var o := TurnOutcome(cfg, e, life);
            var first, run := FirstHalf(cfg, e, s, r, o), TurnRun(cfg, e, s, r, o, others);
            && CanAll(cfg, s, first)
            && (Meets(cfg, e, DoAll(cfg, s, first), others, r) ==>
                  && CanAll(cfg, s, run)
                  && DoAll(cfg, s, run).tables == Processed(cfg, e, life).tables
                  && r < |s.relays| == |DoAll(cfg, DoAll(cfg, s, first), others).relays|
                  && DoAll(cfg, s, run).relays == DoAll(cfg, DoAll(cfg, s, first), others).relays[r := Idle])
  {
    var o := TurnOutcome(cfg, e, life);
    TurnIsLawful(cfg, e, life);
    ClaimAndSends(cfg, e, s, r, o);
    ProcessedTables(cfg, e, life);
    var s1 := DoAll(cfg, s, FirstHalf(cfg, e, s, r, o));
    if Meets(cfg, e, s1, others, r) {
      RestOfTurn(cfg, e, s, r, o, others);
    }
  }

  lemma RestOfTurn(cfg: Config, e: Turn, s: State, r: nat, o: Outcome, others: seq<Action>)
    requires CanAll(cfg, s, FirstHalf(cfg, e, s, r, o)) && Jittery(cfg, e)
    requires var s1 := DoAll(cfg, s, FirstHalf(cfg, e, s, r, o));
             && Meets(cfg, e, s1, others, r)
             && Holds(s1, r) && s1.relays[r].attempts == o.attempts
             && Lawful(cfg, s1.relays[r].batch, o.attempts, o.lists)
    ensures var first, run := FirstHalf(cfg, e, s, r, o), TurnRun(cfg, e, s, r, o, others);
            var s1 := DoAll(cfg, s, first);
            var s2 := DoAll(cfg, s1, others);
            && CanAll(cfg, s, run)
            && DoAll(cfg, s, run).tables == Settle(cfg, s2.tables, o.lists, e.Jitters(|o.lists.failed|), s2.now)
            && r < |s1.relays| == |s2.relays|
            && DoAll(cfg, s, run).relays == s2.relays[r := Idle]
  {
    var first := FirstHalf(cfg, e, s, r, o);
    var s1 := DoAll(cfg, s, first);
    OthersLeaveIt(cfg, s1, others, r);
    RunConcat(cfg, s, first, others);
    CommitRuns(cfg, e, DoAll(cfg, s1, others), r, o, s1.relays[r].batch);
    RunConcat(cfg, s, first + others, [Action.Commit(r, o.lists, e.Jitters(|o.lists.failed|))]);
  }

  /** A turn whose second transaction fails is a crash of the protocol between the two. */
  lemma FailedTurnIsACrash(cfg: Config, e: Turn, life: Life, s: State, r: nat, others: seq<Action>)
    requires cfg.Valid() && Consistent(s) && r < |s.relays| && s.relays[r].Idle? && life.tables == s.tables
    requires e.fault == CommitFails && e.claimAt == s.now
    requires Works(cfg, e, life)
    ensures var o := TurnOutcome(cfg, e, life);
            var first := FirstHalf(cfg, e, s, r, o);
            var run := first + others + [Action.Crash(r)];
            && CanAll(cfg, s, first)
            && (Meets(cfg, e, DoAll(cfg, s, first), others, r) ==>
                  && CanAll(cfg, s, run)
                  && DoAll(cfg, s, run).tables == Processed(cfg, e, life).tables
                  && DoAll(cfg, s, run).accepted == DoAll(cfg, DoAll(cfg, s, first), others).accepted)
  {
    var o := TurnOutcome(cfg, e, life);
    TurnIsLawful(cfg, e, life);
    ClaimAndSends(cfg, e, s, r, o);
    FailedTables(cfg, e, life);
    var first := FirstHalf(cfg, e, s, r, o);
    var s1 := DoAll(cfg, s, first);
    if Meets(cfg, e, s1, others, r) {
      OthersLeaveIt(cfg, s1, others, r);
      RunConcat(cfg, s, first, others);
      CrashRuns(cfg, DoAll(cfg, s1, others), r);
      RunConcat(cfg, s, first + others, [Action.Crash(r)]);
    }
  }

  lemma FailedTables(cfg: Config, e: Turn, life: Life)
    requires cfg.Valid() && e.fault == CommitFails
    requires Works(cfg, e, life)
    ensures var batch := Selected(life.tables, e.locked, cfg.staleTimeout, e.claimAt, cfg.batchSize);
            Processed(cfg, e, life).tables == e.between(Stamped(life.tables, batch, e.claimAt))
  {
  }

  lemma CrashRuns(cfg: Config, s: State, r: nat)
    requires Holds(s, r)
    ensures var crash := [Action.Crash(r)];
            && CanAll(cfg, s, crash)
            && DoAll(cfg, s, crash) == s.(relays := s.relays[r := Idle])
  {
    var crash := [Action.Crash(r)];
    assert crash[1..] == [];
    assert CanAll(cfg, Do(cfg, s, crash[0]), []);
  }

  lemma CommitRuns(cfg: Config, e: Turn, s: State, r: nat, o: Outcome, batch: seq<Row>)
    requires Holds(s, r) && s.relays[r].batch == batch && s.relays[r].attempts == o.attempts
    requires Lawful(cfg, batch, o.attempts, o.lists) && Jittery(cfg, e)
    ensures var jitters := e.Jitters(|o.lists.failed|);
            var commit := [Action.Commit(r, o.lists, jitters)];
            && CanAll(cfg, s, commit)
            && DoAll(cfg, s, commit).tables == Settle(cfg, s.tables, o.lists, jitters, s.now)
            && DoAll(cfg, s, commit)
               == s.(tables := DoAll(cfg, s, commit).tables, relays := s.relays[r := Idle])
  {
    var commit := [Action.Commit(r, o.lists, e.Jitters(|o.lists.failed|))];
    assert commit[1..] == [];
    assert CanAll(cfg, Do(cfg, s, commit[0]), []);
  }
}
