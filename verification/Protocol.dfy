/** The life of a message across several relays: the two transactions of each relay, crashes
    between them, and what operators may do meanwhile. Each action is atomic, as the
    transactions are; a relay acts in its second transaction on copies of rows that others
    may have changed or deleted since its first. */
module Protocol {
  import opened Types
  import opened Backoff
  import opened Engine
  import opened Mutations
  import opened Selector
  import opened Replay

  /** `attempts` are the sends of this batch that have ended so far. */
  datatype RelayState = Idle | Holding(stamp: real, batch: seq<Row>, attempts: map<nat, Attempt>)

  /** `enqueued`, `accepted`, `refused` and `purged` are the history, by ticket: what was
      committed to the outbox, how often the broker took it, how often a send failed for a
      reason other than an outage, and which dead letters were purged. */
  datatype State = State(
    tables: Tables,
    now: real,
    relays: seq<RelayState>,
    enqueued: map<nat, Payload>,
    accepted: multiset<nat>,
    refused: multiset<nat>,
    purged: set<nat>)

  datatype Action =
    | Enqueue(payload: Payload)
    | Claim(relay: nat, locked: set<nat>)
    | Publish(relay: nat, index: nat, attempt: Attempt)
    | Commit(relay: nat, lists: Lists, jitters: seq<real>)
    | Crash(relay: nat)
    | ReplayDead(ids: set<nat>, limit: Option<nat>)
    | ResetRetries(ids: set<nat>)
    | Purge(ids: set<nat>)
    | Tick(seconds: real)

  function Start(k: nat, now: real): State {
    State(Tables(map[], map[], 0, 0), now, seq(k, _ => Idle), map[], multiset{}, multiset{}, {})
  }

  ghost predicate Holds(s: State, r: nat) {
    r < |s.relays| && s.relays[r].Holding?
  }

  ghost predicate Can(cfg: Config, s: State, a: Action) {
    match a
    case Enqueue(p) => p.ticket !in s.enqueued
    case Claim(r, _) => r < |s.relays| && s.relays[r].Idle?
    case Publish(r, i, _) =>
      && Holds(s, r) && i < |s.relays[r].batch|
      && s.relays[r].batch[i].id !in s.relays[r].attempts
      && s.relays[r].batch[i].retries < cfg.maxRetries
    case Commit(r, l, jitters) =>
      && Holds(s, r) && Lawful(cfg, s.relays[r].batch, s.relays[r].attempts, l)
      && |jitters| == |l.failed| && forall i :: 0 <= i < |jitters| ==> IsJitter(cfg, jitters[i])
    case Crash(r) => Holds(s, r)
    case ReplayDead(_, _) => true
    case ResetRetries(_) => true
    case Purge(_) => true
    case Tick(seconds) => seconds >= 0.0
  }

  function NewRow(id: nat, now: real, p: Payload): Row {
    Row(id, now, None, 0, None, p)
  }

  function AfterEnqueue(t: Tables, now: real, p: Payload): Tables {
    t.(outbox := t.outbox[t.nextRow := NewRow(t.nextRow, now, p)], nextRow := t.nextRow + 1)
  }

  /** `reset_retries` of the admin. */
  function AfterReset(t: Tables, ids: set<nat>): Tables {
    t.(outbox := map id | id in t.outbox ::
         if id in ids then t.outbox[id].(retries := 0, retryAfter := None, updatedAt := None) else t.outbox[id])
  }

  function AfterPurge(t: Tables, ids: set<nat>): Tables {
    t.(dead := map id | id in t.dead && id !in ids :: t.dead[id])
  }

  function Log(log: multiset<nat>, ticket: nat, happened: bool): multiset<nat> {
    if happened then log + multiset{ticket} else log
  }

  ghost function Do(cfg: Config, s: State, a: Action): State
    requires Can(cfg, s, a)
  {
    match a
    case Enqueue(p) =>
      s.(tables := AfterEnqueue(s.tables, s.now, p), enqueued := s.enqueued[p.ticket := p])
    case Claim(r, locked) =>
      var batch := Selected(s.tables, locked, cfg.staleTimeout, s.now, cfg.batchSize);
      s.(tables := Stamped(s.tables, batch, s.now), relays := s.relays[r := Holding(s.now, batch, map[])])
    case Publish(r, i, attempt) =>
      var h := s.relays[r];
      var m := h.batch[i];
      s.(relays := s.relays[r := h.(attempts := h.attempts[m.id := attempt])],
         accepted := Log(s.accepted, m.payload.ticket, attempt.Accepted?),
         refused := Log(s.refused, m.payload.ticket, attempt.Refused?))
    case Commit(r, l, jitters) =>
      s.(tables := Settle(cfg, s.tables, l, jitters, s.now), relays := s.relays[r := Idle])
    case Crash(r) =>
      s.(relays := s.relays[r := Idle])
    case ReplayDead(ids, limit) =>
      s.(tables := AfterReplay(s.tables, ids, limit, s.now))
    case ResetRetries(ids) =>
      s.(tables := AfterReset(s.tables, ids))
    case Purge(ids) =>
      s.(tables := AfterPurge(s.tables, ids),
         purged := s.purged + set id | id in s.tables.dead && id in ids :: s.tables.dead[id].payload.ticket)
    case Tick(seconds) =>
      s.(now := s.now + seconds)
  }

  ghost predicate CanAll(cfg: Config, s: State, run: seq<Action>)
    decreases |run|
  {
    run == [] || (Can(cfg, s, run[0]) && CanAll(cfg, Do(cfg, s, run[0]), run[1..]))
  }

  /** The state a run leads to. */
  ghost function DoAll(cfg: Config, s: State, run: seq<Action>): State
    requires CanAll(cfg, s, run)
    decreases |run|
  {
    if run == [] then s else DoAll(cfg, Do(cfg, s, run[0]), run[1..])
  }

  lemma {:induction false} RunConcat(cfg: Config, s: State, a: seq<Action>, b: seq<Action>)
    requires CanAll(cfg, s, a) && CanAll(cfg, DoAll(cfg, s, a), b)
    ensures CanAll(cfg, s, a + b) && DoAll(cfg, s, a + b) == DoAll(cfg, DoAll(cfg, s, a), b)
    decreases |a|
  {
    if a == [] {
      assert a + b == b;
    } else {
      assert (a + b)[1..] == a[1..] + b;
      RunConcat(cfg, Do(cfg, s, a[0]), a[1..], b);
    }
  }

  // ---- What holds of tables and copies in every run ---------------------------------------------

  /** A relay's copy never outlives its row's identity: while the row exists it still has
      the payload that was copied. */
  ghost predicate CopyFits(t: Tables, m: Row) {
    m.id < t.nextRow && (m.id in t.outbox ==> t.outbox[m.id].payload == m.payload)
  }

  ghost predicate CopiesFit(t: Tables, h: RelayState) {
    h.Holding? ==>
      && IncreasingIds(h.batch)
      && (forall i :: 0 <= i < |h.batch| ==> CopyFits(t, h.batch[i]))
      && h.attempts.Keys <= (set m | m in h.batch :: m.id)
  }

  ghost predicate Consistent(s: State) {
    && s.tables.Valid()
    && forall r :: 0 <= r < |s.relays| ==> CopiesFit(s.tables, s.relays[r])
  }

  lemma IncreasingIsUnique(rows: seq<Row>)
    requires IncreasingIds(rows)
    ensures UniqueIds(rows)
  {
  }

  /** What a commit at `now` makes of a row it keeps. */
  ghost predicate RowSettled(cfg: Config, l: Lists, now: real, row: Row, row': Row) {
    if row.id in FailedIds(l.failed) then
      && row'.retryAfter.Some? && now < row'.retryAfter.value <= now + cfg.maxBackoff
      && row' == row.(retries := row.retries + 1, updatedAt := Some(now), retryAfter := row'.retryAfter)
    else if row.id in l.deferred then row' == PutOff(row, now, cfg.cooldown)
    else row' == row
  }

  ghost predicate OutboxSettled(cfg: Config, t: Tables, l: Lists, now: real, t': Tables) {
    && (forall id :: id in t.outbox ==> (id in t'.outbox <==> id !in l.published && id !in Ids(l.exceeded)))
    && (forall id :: id in t'.outbox ==> id in t.outbox && RowSettled(cfg, l, now, t.outbox[id], t'.outbox[id]))
  }

  ghost predicate DeadSettled(dead: map<nat, DeadRow>, batch: seq<Row>, l: Lists, now: real, dead': map<nat, DeadRow>) {
    && (forall d :: d in dead ==> d in dead' && dead'[d] == dead[d])
    && (forall d :: d in dead' ==> d in dead || BuriesOneOf(batch, l, now, dead'[d]))
    && (forall m :: m in l.exceeded ==> LiesIn(dead', m, now))
  }

  /** What a lawful commit of `h` at `now` does, row by row. */
  ghost predicate CommitEffect(cfg: Config, t: Tables, h: RelayState, l: Lists, now: real, t': Tables) {
    && t'.Valid() && t'.nextRow == t.nextRow && h.Holding?
    && OutboxSettled(cfg, t, l, now, t')
    && DeadSettled(t.dead, h.batch, l, now, t'.dead)
  }

  ghost predicate BuriesOneOf(batch: seq<Row>, l: Lists, now: real, d: DeadRow) {
    exists i :: 0 <= i < |batch| && batch[i] in l.exceeded && d == Buried(batch[i], d.id, now)
  }

  ghost predicate LiesIn(dead: map<nat, DeadRow>, m: Row, now: real) {
    exists d :: d in dead && dead[d] == Buried(m, d, now)
  }

  lemma NewDeadLetters(next: nat, batch: seq<Row>, l: Lists, now: real, dead: map<nat, DeadRow>,
                       dead': map<nat, DeadRow>, made: map<nat, DeadRow>)
    requires forall d :: d in dead ==> d < next
    requires forall m :: m in l.exceeded ==> m in batch
    requires forall d :: d in made <==> next <= d < next + |l.exceeded|
    requires forall d :: d in made ==> made[d] == Buried(l.exceeded[d - next], d, now)
    requires dead' == dead + made
    ensures DeadSettled(dead, batch, l, now, dead')
  {
    forall d | d in dead' && d !in dead ensures BuriesOneOf(batch, l, now, dead'[d]) {
      assert l.exceeded[d - next] in l.exceeded;
    }
    forall m | m in l.exceeded ensures LiesIn(dead', m, now) {
      var i :| 0 <= i < |l.exceeded| && l.exceeded[i] == m;
      assert dead'[next + i] == Buried(m, next + i, now);
    }
  }

  lemma PointwiseSettles(cfg: Config, t: Tables, l: Lists, jitters: seq<real>, now: real)
    requires cfg.Valid() && t.Valid()
    requires |jitters| == |l.failed| && forall i :: 0 <= i < |jitters| ==> IsJitter(cfg, jitters[i])
    ensures OutboxSettled(cfg, t, l, now, Pointwise(cfg, ALL, t, l, jitters, now))
    ensures forall id :: id in Pointwise(cfg, ALL, t, l, jitters, now).outbox ==>
              Pointwise(cfg, ALL, t, l, jitters, now).outbox[id].id == id < t.nextRow
  {
    var t' := Pointwise(cfg, ALL, t, l, jitters, now);
    forall id | id in t'.outbox ensures RowSettled(cfg, l, now, t.outbox[id], t'.outbox[id]) {
      RowAfterIsSettled(cfg, l, jitters, now, t.outbox[id]);
    }
  }

  lemma PointwiseBuries(cfg: Config, t: Tables, batch: seq<Row>, l: Lists, jitters: seq<real>, now: real)
    requires t.Valid() && |jitters| == |l.failed| && forall m :: m in l.exceeded ==> m in batch
    ensures var t' := Pointwise(cfg, ALL, t, l, jitters, now);
            && t'.nextRow == t.nextRow
            && (forall id :: id in t'.dead ==> t'.dead[id].id == id < t'.nextDead)
            && DeadSettled(t.dead, batch, l, now, t'.dead)
  {
    var made := DeadLetters(l.exceeded, t.nextDead, now);
    NewDeadLetters(t.nextDead, batch, l, now, t.dead, t.dead + made, made);
    DeadStayNumbered(t, l.exceeded, now);
  }

  lemma DeadStayNumbered(t: Tables, ms: seq<Row>, now: real)
    requires t.Valid()
    ensures var dead := t.dead + DeadLetters(ms, t.nextDead, now);
            forall id :: id in dead ==> dead[id].id == id < t.nextDead + |ms|
  {
  }

  lemma CommitHasEffect(cfg: Config, t: Tables, h: RelayState, l: Lists, jitters: seq<real>, now: real)
    requires cfg.Valid() && t.Valid() && h.Holding? && Lawful(cfg, h.batch, h.attempts, l) && IncreasingIds(h.batch)
    requires |jitters| == |l.failed| && forall i :: 0 <= i < |jitters| ==> IsJitter(cfg, jitters[i])
    ensures CommitEffect(cfg, t, h, l, now, Settle(cfg, t, l, jitters, now))
  {
    IncreasingIsUnique(h.batch);
    LawfulIsDisjoint(cfg, h.batch, h.attempts, l);
    SettleIsPointwise(cfg, t, l, jitters, now);
    PointwiseSettles(cfg, t, l, jitters, now);
    PointwiseBuries(cfg, t, h.batch, l, jitters, now);
  }

  lemma RowAfterIsSettled(cfg: Config, l: Lists, jitters: seq<real>, now: real, row: Row)
    requires cfg.Valid() && |jitters| == |l.failed| && forall i :: 0 <= i < |jitters| ==> IsJitter(cfg, jitters[i])
    ensures RowSettled(cfg, l, now, row, RowAfter(cfg, ALL, l, jitters, now, row))
  {
    if row.id in FailedIds(l.failed) { CaseDelayInRange(cfg, l.failed, jitters, row.id); }
  }

  /** What a replay at `now` does: see `ReplayMoves`. */
  ghost predicate ReplayEffect(t: Tables, now: real, t': Tables) {
    && t'.Valid() && t.nextRow <= t'.nextRow
    && (forall id :: id in t.outbox ==> id in t'.outbox && t'.outbox[id] == t.outbox[id])
    && (forall d :: d in t'.dead ==> d in t.dead && t'.dead[d] == t.dead[d])
    && (forall d :: d in t.dead && d !in t'.dead ==> Reappears(t, t', now, d))
    && (forall id :: id in t'.outbox && id !in t.outbox ==> ComesBack(t, t', now, id))
  }

  lemma ReplayHasEffect(t: Tables, ids: set<nat>, limit: Option<nat>, now: real)
    requires t.Valid()
    ensures ReplayEffect(t, now, AfterReplay(t, ids, limit, now))
  {
    ReplayMoves(t, ids, limit, now);
  }

  /** What a claim at `now` does. */
  ghost predicate ClaimEffect(cfg: Config, t: Tables, batch: seq<Row>, now: real, t': Tables) {
    && t'.Valid() && t'.nextRow == t.nextRow && t'.dead == t.dead
    && IncreasingIds(batch)
    && (forall i :: 0 <= i < |batch| ==> batch[i].id in t.outbox && t.outbox[batch[i].id] == batch[i]
                                         && Pending(batch[i], now, cfg.staleTimeout))
    && (forall id :: id in t.outbox <==> id in t'.outbox)
    && (forall id :: id in t'.outbox ==>
          t'.outbox[id] == if id in Ids(batch) then t.outbox[id].(updatedAt := Some(now)) else t.outbox[id])
  }

  lemma ClaimHasEffect(cfg: Config, t: Tables, locked: set<nat>, now: real)
    requires t.Valid()
    ensures var batch := Selected(t, locked, cfg.staleTimeout, now, cfg.batchSize);
            ClaimEffect(cfg, t, batch, now, Stamped(t, batch, now))
  {
    SelectedAreTheOldestFree(t, locked, cfg.staleTimeout, now, cfg.batchSize);
    var batch := Selected(t, locked, cfg.staleTimeout, now, cfg.batchSize);
    forall i | 0 <= i < |batch|
      ensures batch[i].id in t.outbox && t.outbox[batch[i].id] == batch[i] && Pending(batch[i], now, cfg.staleTimeout)
    {
      assert batch[i] in batch;
    }
  }

  /** Rows keep their payload while they exist, and ids are not used again. */
  ghost predicate Evolves(t: Tables, r: Tables) {
    && t.nextRow <= r.nextRow
    && forall id :: id in r.outbox && id < t.nextRow ==> id in t.outbox && r.outbox[id].payload == t.outbox[id].payload
  }

  /** An enqueued task is one new row that nobody has touched. */
  ghost predicate EnqueueEffect(t: Tables, now: real, p: Payload, t': Tables) {
    t' == t.(outbox := t.outbox[t.nextRow := Row(t.nextRow, now, None, 0, None, p)], nextRow := t.nextRow + 1)
  }

  /** A reset makes a row as if it had never been touched. */
  ghost predicate ResetEffect(t: Tables, ids: set<nat>, t': Tables) {
    && t' == t.(outbox := t'.outbox)
    && t'.outbox.Keys == t.outbox.Keys
    && forall id :: id in t.outbox ==>
         var row := t.outbox[id];
         t'.outbox[id] == if id in ids then Row(row.id, row.createdAt, None, 0, None, row.payload) else row
  }

  /** A purge removes dead letters and nothing else. */
  ghost predicate PurgeEffect(t: Tables, ids: set<nat>, t': Tables) {
    && t' == t.(dead := t'.dead)
    && t'.dead.Keys == t.dead.Keys - ids
    && forall d :: d in t'.dead ==> t'.dead[d] == t.dead[d]
  }

  /** Each action by its effect on the tables. */
  ghost predicate StepEffect(cfg: Config, s: State, a: Action, t': Tables)
    requires Can(cfg, s, a)
  {
    match a
    case Claim(r, locked) => ClaimEffect(cfg, s.tables,
                                         Selected(s.tables, locked, cfg.staleTimeout, s.now, cfg.batchSize), s.now, t')
    case Commit(r, l, _) => CommitEffect(cfg, s.tables, s.relays[r], l, s.now, t')
    case ReplayDead(_, _) => ReplayEffect(s.tables, s.now, t')
    case Enqueue(p) => EnqueueEffect(s.tables, s.now, p, t')
    case ResetRetries(ids) => ResetEffect(s.tables, ids, t')
    case Purge(ids) => PurgeEffect(s.tables, ids, t')
    case Publish(_, _, _) => t' == s.tables
    case Crash(_) => t' == s.tables
    case Tick(_) => t' == s.tables
  }

  lemma StepHasEffect(cfg: Config, s: State, a: Action)
    requires cfg.Valid() && Can(cfg, s, a) && Consistent(s)
    ensures StepEffect(cfg, s, a, Do(cfg, s, a).tables)
  {
    match a
    case Claim(r, locked) => ClaimHasEffect(cfg, s.tables, locked, s.now);
    case Commit(r, l, jitters) => CommitHasEffect(cfg, s.tables, s.relays[r], l, jitters, s.now);
    case ReplayDead(ids, limit) => ReplayHasEffect(s.tables, ids, limit, s.now);
    case _ =>
  }

  lemma StepEvolves(cfg: Config, s: State, a: Action, t': Tables)
    requires Can(cfg, s, a) && Consistent(s) && StepEffect(cfg, s, a, t')
    ensures t'.Valid() && Evolves(s.tables, t')
  {
  }

  lemma CopiesEvolve(t: Tables, r: Tables, h: RelayState)
    requires Evolves(t, r) && CopiesFit(t, h)
    ensures CopiesFit(r, h)
  {
    if h.Holding? {
      forall i | 0 <= i < |h.batch| ensures CopyFits(r, h.batch[i]) {
        assert CopyFits(t, h.batch[i]);
      }
    }
  }

  lemma StepConsistent(cfg: Config, s: State, a: Action)
    requires cfg.Valid() && Can(cfg, s, a) && Consistent(s)
    ensures Consistent(Do(cfg, s, a))
  {
    var s' := Do(cfg, s, a);
    StepHasEffect(cfg, s, a);
    StepEvolves(cfg, s, a, s'.tables);
    forall r | 0 <= r < |s'.relays| ensures CopiesFit(s'.tables, s'.relays[r]) {
      CopiesEvolve(s.tables, s'.tables, s.relays[r]);
      if a.Publish? && a.relay == r {
        assert s.relays[r].batch[a.index] in s.relays[r].batch;
      }
    }
  }

  lemma StartConsistent(k: nat, now: real)
    ensures Consistent(Start(k, now))
  {
  }

  lemma EvolvesFurther(t: Tables, u: Tables, r: Tables)
    requires Evolves(t, u) && Evolves(u, r)
    ensures Evolves(t, r)
  {
  }

  /** In every run copies fit their rows, and an outbox id once used means one row for good:
      a row that is gone never comes back under its id, and one that stays keeps its payload. */
  lemma {:induction false} RunConsistent(cfg: Config, s: State, run: seq<Action>)
    requires cfg.Valid() && Consistent(s) && CanAll(cfg, s, run)
    ensures Consistent(DoAll(cfg, s, run))
    ensures Evolves(s.tables, DoAll(cfg, s, run).tables)
    decreases |run|
  {
    if run != [] {
      var s1 := Do(cfg, s, run[0]);
      StepHasEffect(cfg, s, run[0]);
      StepEvolves(cfg, s, run[0], s1.tables);
      StepConsistent(cfg, s, run[0]);
      RunConsistent(cfg, s1, run[1..]);
      EvolvesFurther(s.tables, s1.tables, DoAll(cfg, s1, run[1..]).tables);
    }
  }
}
