/** One relay that never crashes, and nobody else touching the tables. */
module SingleRelay {
  import opened Types
  import opened Engine
  import opened Mutations
  import opened Selector
  import opened Protocol

  predicate Undisturbed(a: Action) {
    a.Enqueue? || a.Claim? || a.Publish? || a.Commit? || a.Tick?
  }

  /** How often the broker took, and how often it refused, the task of a row the relay has
      `retries` on, given how the current batch's attempt at it ended, if there was one. */
  ghost predicate Counts(s: State, row: Row, attempt: Option<Attempt>) {
    var ticket := row.payload.ticket;
    if attempt.None? || attempt.value.BrokerDown? then s.accepted[ticket] == 0 && s.refused[ticket] == row.retries
    else if attempt.value.Accepted? then s.accepted[ticket] == 1 && s.refused[ticket] == row.retries
    else s.accepted[ticket] == 0 && s.refused[ticket] == row.retries + 1
  }

  function AttemptAt(h: RelayState, id: nat): Option<Attempt> {
    if h.Holding? && id in h.attempts then Some(h.attempts[id]) else None
  }

  ghost predicate RowCounted(cfg: Config, s: State, h: RelayState, id: nat)
    requires id in s.tables.outbox
  {
    && s.tables.outbox[id].retries < cfg.maxRetries
    && s.tables.outbox[id].payload.ticket in s.enqueued
    && Counts(s, s.tables.outbox[id], AttemptAt(h, id))
  }

  /** A dead letter was refused exactly `max_retries` times and never taken. */
  ghost predicate DeadCounted(cfg: Config, s: State, d: DeadRow) {
    && d.payload.ticket in s.enqueued
    && s.refused[d.payload.ticket] == cfg.maxRetries
    && s.accepted[d.payload.ticket] == 0
    && d.retries == cfg.maxRetries - 1
  }

  ghost predicate CopiesExact(t: Tables, h: RelayState) {
    h.Holding? ==> forall i :: 0 <= i < |h.batch| ==>
      h.batch[i].id in t.outbox && t.outbox[h.batch[i].id].retries == h.batch[i].retries
  }

  ghost predicate OneRowEach(t: Tables) {
    && (forall a, b :: a in t.outbox && b in t.outbox && a != b ==>
          t.outbox[a].payload.ticket != t.outbox[b].payload.ticket)
    && (forall a, d :: a in t.outbox && d in t.dead ==> t.outbox[a].payload.ticket != t.dead[d].payload.ticket)
  }

  ghost predicate Orderly(cfg: Config, s: State) {
    && Consistent(s) && |s.relays| == 1
    && CopiesExact(s.tables, s.relays[0])
    && OneRowEach(s.tables)
    && (forall id :: id in s.tables.outbox ==> RowCounted(cfg, s, s.relays[0], id))
    && (forall d :: d in s.tables.dead ==> DeadCounted(cfg, s, s.tables.dead[d]))
    && (forall ticket :: s.accepted[ticket] <= 1)
    && (forall ticket :: ticket !in s.enqueued ==> s.accepted[ticket] == 0 && s.refused[ticket] == 0)
  }

  // ---- Publish -------------------------------------------------------------------------------

  lemma PublishOrderly(cfg: Config, s: State, i: nat, attempt: Attempt)
    requires Orderly(cfg, s) && Can(cfg, s, Publish(0, i, attempt))
    ensures Orderly(cfg, Do(cfg, s, Publish(0, i, attempt)))
  {
    var s', h := Do(cfg, s, Publish(0, i, attempt)), s.relays[0];
    var m := h.batch[i];
    var h' := s'.relays[0];
    assert CopiesFit(s.tables, h) && CopyFits(s.tables, m);
    assert m in h.batch;
    forall id | id in s'.tables.outbox ensures RowCounted(cfg, s', h', id) {
      assert RowCounted(cfg, s, h, id) && RowCounted(cfg, s, h, m.id);
    }
    forall d | d in s'.tables.dead ensures DeadCounted(cfg, s', s'.tables.dead[d]) {
      assert DeadCounted(cfg, s, s.tables.dead[d]);
    }
    forall ticket ensures s'.accepted[ticket] <= 1
        && (ticket !in s'.enqueued ==> s'.accepted[ticket] == 0 && s'.refused[ticket] == 0) {
      assert RowCounted(cfg, s, h, m.id);
    }
  }

  // ---- Commit --------------------------------------------------------------------------------

  /** The count of a row the relay holds, once its attempt has been committed. */
  lemma HeldRowCounted(cfg: Config, s: State, l: Lists, row': Row, i: nat)
    requires Orderly(cfg, s) && Holds(s, 0) && Lawful(cfg, s.relays[0].batch, s.relays[0].attempts, l)
    requires i < |s.relays[0].batch|
    requires var id := s.relays[0].batch[i].id;
             id in s.tables.outbox && id !in l.published && id !in Ids(l.exceeded)
             && RowSettled(cfg, l, s.now, s.tables.outbox[id], row')
    ensures row'.retries < cfg.maxRetries && Counts(s, row', None)
  {
    var h := s.relays[0];
    var m := h.batch[i];
    assert RowCounted(cfg, s, h, m.id);
    assert CopiesFit(s.tables, h);
    IncreasingIsUnique(h.batch);
    assert m in h.batch && Justified(cfg, h.attempts, l, m);
    LawfulReadsBack(cfg, h.batch, h.attempts, l, m);
    Listed(l, m);
    assert s.tables.outbox[m.id].id == m.id;
  }

  lemma UnheldRowUnlisted(cfg: Config, h: RelayState, l: Lists, id: nat)
    requires h.Holding? && Lawful(cfg, h.batch, h.attempts, l) && IncreasingIds(h.batch)
    requires forall i :: 0 <= i < |h.batch| ==> h.batch[i].id != id
    ensures id !in FailedIds(l.failed) && id !in l.deferred && AttemptAt(h, id).None?
  {
    IncreasingIsUnique(h.batch);
    OneList(cfg, h.batch, h.attempts, l, id);
    forall m | m in h.batch ensures m.id != id {
      var i :| 0 <= i < |h.batch| && h.batch[i] == m;
    }
    assert id !in Classified(l);
  }

  /** What is left of a row's count once the batch has been committed. */
  lemma CommittedRowCounted(cfg: Config, s: State, l: Lists, t': Tables, id: nat)
    requires Orderly(cfg, s) && Holds(s, 0) && Lawful(cfg, s.relays[0].batch, s.relays[0].attempts, l)
    requires CommitEffect(cfg, s.tables, s.relays[0], l, s.now, t') && id in t'.outbox
    ensures RowCounted(cfg, s.(tables := t'), Idle, id)
  {
    var h := s.relays[0];
    assert RowCounted(cfg, s, h, id) && RowSettled(cfg, l, s.now, s.tables.outbox[id], t'.outbox[id]);
    if i :| 0 <= i < |h.batch| && h.batch[i].id == id {
      HeldRowCounted(cfg, s, l, t'.outbox[id], i);
    } else {
      assert CopiesFit(s.tables, h);
      UnheldRowUnlisted(cfg, h, l, id);
    }
  }

  /** The rows a commit buries are the ones just refused for the last time; a copy that is
      past its retries before the attempt does not occur. */
  lemma BuriedCopyCounted(cfg: Config, s: State, l: Lists, i: nat)
    requires Orderly(cfg, s) && Holds(s, 0) && Lawful(cfg, s.relays[0].batch, s.relays[0].attempts, l)
    requires i < |s.relays[0].batch| && s.relays[0].batch[i] in l.exceeded
    ensures var m := s.relays[0].batch[i];
            && m.id in s.relays[0].attempts && s.relays[0].attempts[m.id].Refused?
            && m.retries == cfg.maxRetries - 1
            && m.payload.ticket in s.enqueued
            && s.refused[m.payload.ticket] == cfg.maxRetries && s.accepted[m.payload.ticket] == 0
  {
    var h := s.relays[0];
    var m := h.batch[i];
    assert CopiesFit(s.tables, h) && CopyFits(s.tables, m);
    assert RowCounted(cfg, s, h, m.id);
    IncreasingIsUnique(h.batch);
    assert m in h.batch;
    Listed(l, m);
    LawfulReadsBack(cfg, h.batch, h.attempts, l, m);
  }

  lemma CommitOneRowEach(cfg: Config, s: State, l: Lists, t': Tables)
    requires Orderly(cfg, s) && Holds(s, 0) && Lawful(cfg, s.relays[0].batch, s.relays[0].attempts, l)
    requires CommitEffect(cfg, s.tables, s.relays[0], l, s.now, t')
    ensures OneRowEach(t')
  {
    var h, t := s.relays[0], s.tables;
    forall a | a in t'.outbox ensures t'.outbox[a].payload == t.outbox[a].payload {
      assert RowSettled(cfg, l, s.now, t.outbox[a], t'.outbox[a]);
    }
    forall a, d | a in t'.outbox && d in t'.dead ensures t'.outbox[a].payload.ticket != t'.dead[d].payload.ticket {
      if d !in t.dead {
        assert BuriesOneOf(h.batch, l, s.now, t'.dead[d]);
        var i :| 0 <= i < |h.batch| && h.batch[i] in l.exceeded && t'.dead[d] == Buried(h.batch[i], d, s.now);
        assert CopiesFit(t, h) && CopyFits(t, h.batch[i]);
        Listed(l, h.batch[i]);
        assert a != h.batch[i].id;
      }
    }
  }

  lemma CommitOrderly(cfg: Config, s: State, l: Lists, jitters: seq<real>)
    requires cfg.Valid() && Orderly(cfg, s) && Can(cfg, s, Commit(0, l, jitters))
    ensures Orderly(cfg, Do(cfg, s, Commit(0, l, jitters)))
  {
    var s' := Do(cfg, s, Commit(0, l, jitters));
    StepConsistent(cfg, s, Commit(0, l, jitters));
    StepHasEffect(cfg, s, Commit(0, l, jitters));
    CommitOneRowEach(cfg, s, l, s'.tables);
    forall id | id in s'.tables.outbox ensures RowCounted(cfg, s', s'.relays[0], id) {
      CommittedRowCounted(cfg, s, l, s'.tables, id);
    }
    forall d | d in s'.tables.dead ensures DeadCounted(cfg, s', s'.tables.dead[d]) {
      if d in s.tables.dead {
        assert DeadCounted(cfg, s, s.tables.dead[d]);
      } else {
        assert BuriesOneOf(s.relays[0].batch, l, s.now, s'.tables.dead[d]);
        var i :| 0 <= i < |s.relays[0].batch| && s.relays[0].batch[i] in l.exceeded
                 && s'.tables.dead[d] == Buried(s.relays[0].batch[i], d, s.now);
        BuriedCopyCounted(cfg, s, l, i);
      }
    }
  }

  // ---- The others -------------------------------------------------------------------------------

  lemma NewIdUnattempted(t: Tables, h: RelayState)
    requires CopiesFit(t, h)
    ensures AttemptAt(h, t.nextRow).None?
  {
    if h.Holding? {
      forall m | m in h.batch ensures m.id != t.nextRow {
        var i :| 0 <= i < |h.batch| && h.batch[i] == m;
        assert CopyFits(t, h.batch[i]);
      }
    }
  }

  lemma EnqueueOneRowEach(cfg: Config, s: State, p: Payload)
    requires Orderly(cfg, s) && p.ticket !in s.enqueued
    ensures OneRowEach(AfterEnqueue(s.tables, s.now, p))
  {
    forall a | a in s.tables.outbox ensures s.tables.outbox[a].payload.ticket != p.ticket {
      assert RowCounted(cfg, s, s.relays[0], a);
    }
    forall d | d in s.tables.dead ensures s.tables.dead[d].payload.ticket != p.ticket {
      assert DeadCounted(cfg, s, s.tables.dead[d]);
    }
  }

  lemma EnqueueOrderly(cfg: Config, s: State, p: Payload)
    requires cfg.Valid() && Orderly(cfg, s) && Can(cfg, s, Enqueue(p))
    ensures Orderly(cfg, Do(cfg, s, Enqueue(p)))
  {
    var s', h := Do(cfg, s, Enqueue(p)), s.relays[0];
    StepConsistent(cfg, s, Enqueue(p));
    EnqueueOneRowEach(cfg, s, p);
    assert CopiesFit(s.tables, h);
    NewIdUnattempted(s.tables, h);
    forall id | id in s'.tables.outbox ensures RowCounted(cfg, s', h, id) {
      if id != s.tables.nextRow { assert RowCounted(cfg, s, h, id); }
    }
    forall d | d in s'.tables.dead ensures DeadCounted(cfg, s', s'.tables.dead[d]) {
      assert DeadCounted(cfg, s, s.tables.dead[d]);
    }
  }

  lemma ClaimedOneRowEach(cfg: Config, t: Tables, batch: seq<Row>, now: real, t': Tables)
    requires OneRowEach(t) && ClaimEffect(cfg, t, batch, now, t')
    ensures OneRowEach(t')
    ensures forall i :: 0 <= i < |batch| ==>
              batch[i].id in t'.outbox && t'.outbox[batch[i].id].retries == batch[i].retries
  {
    forall a | a in t'.outbox ensures t'.outbox[a].payload == t.outbox[a].payload
        && t'.outbox[a].retries == t.outbox[a].retries {}
  }

  lemma ClaimOrderly(cfg: Config, s: State, locked: set<nat>)
    requires cfg.Valid() && Orderly(cfg, s) && Can(cfg, s, Claim(0, locked))
    ensures Orderly(cfg, Do(cfg, s, Claim(0, locked)))
  {
    var s' := Do(cfg, s, Claim(0, locked));
    StepConsistent(cfg, s, Claim(0, locked));
    StepHasEffect(cfg, s, Claim(0, locked));
    ClaimedOneRowEach(cfg, s.tables, s'.relays[0].batch, s.now, s'.tables);
    forall id | id in s'.tables.outbox ensures RowCounted(cfg, s', s'.relays[0], id) {
      assert RowCounted(cfg, s, s.relays[0], id);
    }
    forall d | d in s'.tables.dead ensures DeadCounted(cfg, s', s'.tables.dead[d]) {
      assert DeadCounted(cfg, s, s.tables.dead[d]);
    }
  }

  lemma TickOrderly(cfg: Config, s: State, seconds: real)
    requires cfg.Valid() && Orderly(cfg, s) && Can(cfg, s, Tick(seconds))
    ensures Orderly(cfg, Do(cfg, s, Tick(seconds)))
  {
    var s' := Do(cfg, s, Tick(seconds));
    forall id | id in s'.tables.outbox ensures RowCounted(cfg, s', s'.relays[0], id) {
      assert RowCounted(cfg, s, s.relays[0], id);
    }
    forall d | d in s'.tables.dead ensures DeadCounted(cfg, s', s'.tables.dead[d]) {
      assert DeadCounted(cfg, s, s.tables.dead[d]);
    }
  }

  lemma StepOrderly(cfg: Config, s: State, a: Action)
    requires cfg.Valid() && Orderly(cfg, s) && Can(cfg, s, a) && Undisturbed(a)
    ensures Orderly(cfg, Do(cfg, s, a))
  {
    match a
    case Enqueue(p) => EnqueueOrderly(cfg, s, p);
    case Claim(_, locked) => ClaimOrderly(cfg, s, locked);
    case Publish(_, i, attempt) => PublishOrderly(cfg, s, i, attempt);
    case Commit(_, l, jitters) => CommitOrderly(cfg, s, l, jitters);
    case Tick(seconds) => TickOrderly(cfg, s, seconds);
  }

  lemma {:induction false} RunOrderly(cfg: Config, s: State, run: seq<Action>)
    requires cfg.Valid() && Orderly(cfg, s) && CanAll(cfg, s, run)
    requires forall i :: 0 <= i < |run| ==> Undisturbed(run[i])
    ensures Orderly(cfg, DoAll(cfg, s, run))
    decreases |run|
  {
    if run != [] {
      StepOrderly(cfg, s, run[0]);
      RunOrderly(cfg, Do(cfg, s, run[0]), run[1..]);
    }
  }

  /** A single relay that neither crashes nor is interfered with: the broker takes each task
      at most once; a dead letter was refused exactly `max_retries` times, never taken, and
      is stored with `max_retries - 1`; a row between batches was refused as often as it
      says and never taken; and no claimed copy is past its retries before its attempt. */
  lemma OneRelayIsExact(cfg: Config, now: real, run: seq<Action>)
    requires cfg.Valid() && CanAll(cfg, Start(1, now), run)
    requires forall i :: 0 <= i < |run| ==> Undisturbed(run[i])
    ensures var s := DoAll(cfg, Start(1, now), run);
            && |s.relays| == 1
            && (forall ticket :: s.accepted[ticket] <= 1)
            && (forall d :: d in s.tables.dead ==>
                  var ticket := s.tables.dead[d].payload.ticket;
                  s.refused[ticket] == cfg.maxRetries && s.accepted[ticket] == 0
                      && s.tables.dead[d].retries == cfg.maxRetries - 1)
            && (s.relays[0].Idle? ==> forall id :: id in s.tables.outbox ==>
                  var ticket := s.tables.outbox[id].payload.ticket;
                  s.accepted[ticket] == 0 && s.refused[ticket] == s.tables.outbox[id].retries < cfg.maxRetries)
            && (s.relays[0].Holding? ==>
                  forall i :: 0 <= i < |s.relays[0].batch| ==> s.relays[0].batch[i].retries < cfg.maxRetries)
  {
    StartConsistent(1, now);
    RunOrderly(cfg, Start(1, now), run);
    var s := DoAll(cfg, Start(1, now), run);
    forall d | d in s.tables.dead
      ensures var ticket := s.tables.dead[d].payload.ticket;
              s.refused[ticket] == cfg.maxRetries && s.accepted[ticket] == 0
                  && s.tables.dead[d].retries == cfg.maxRetries - 1
    {
      assert DeadCounted(cfg, s, s.tables.dead[d]);
    }
    forall id | id in s.tables.outbox && s.relays[0].Idle?
      ensures var ticket := s.tables.outbox[id].payload.ticket;
              s.accepted[ticket] == 0 && s.refused[ticket] == s.tables.outbox[id].retries < cfg.maxRetries
    {
      assert RowCounted(cfg, s, s.relays[0], id);
    }
    if s.relays[0].Holding? {
      forall i | 0 <= i < |s.relays[0].batch| ensures s.relays[0].batch[i].retries < cfg.maxRetries {
        assert RowCounted(cfg, s, s.relays[0], s.relays[0].batch[i].id);
      }
    }
  }
}
