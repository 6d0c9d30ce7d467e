/** The bound on retries is exact: a run in which every relay reports the same stale row. */
module RetryBoundReached {
  import opened Types
  import opened Engine
  import opened Selector
  import opened Protocol

  ghost predicate Reaches(cfg: Config, s0: State, s: State) {
    exists run :: CanAll(cfg, s0, run) && DoAll(cfg, s0, run) == s
  }

  lemma ReachesMore(cfg: Config, s0: State, s: State, a: Action)
    requires Reaches(cfg, s0, s) && Can(cfg, s, a)
    ensures Reaches(cfg, s0, Do(cfg, s, a))
  {
    var run :| CanAll(cfg, s0, run) && DoAll(cfg, s0, run) == s;
    var one := [a];
    assert one[1..] == [] && CanAll(cfg, Do(cfg, s, a), one[1..]);
    RunConcat(cfg, s0, run, one);
    assert CanAll(cfg, s0, run + one);
  }

  /** The outbox holds row `id` alone, with `n` retries. */
  ghost predicate Lone(s: State, id: nat, n: nat) {
    && Consistent(s) && s.tables.outbox.Keys == {id}
    && s.tables.outbox[id].retries == n && Supported(s.tables.outbox[id])
  }

  ghost predicate Due(cfg: Config, s: State, id: nat) {
    && id in s.tables.outbox && Pending(s.tables.outbox[id], s.now, cfg.staleTimeout)
    && (s.tables.outbox[id].retryAfter.Some? ==> s.tables.outbox[id].retryAfter.value <= s.now)
  }

  /** The first `m` relays hold a copy of row `id` that says `n`; the others are idle. */
  ghost predicate Holders(s: State, m: nat, id: nat, n: nat) {
    && m <= |s.relays|
    && (forall r :: 0 <= r < m ==> HoldsCopy(s.relays[r], id, n))
    && (forall r :: m <= r < |s.relays| ==> s.relays[r].Idle?)
  }

  ghost predicate HoldsCopy(h: RelayState, id: nat, n: nat) {
    h.Holding? && |h.batch| == 1 && h.batch[0].id == id && h.batch[0].retries == n && h.attempts == map[]
  }

  /** One more relay claims the row, and the stale timeout passes. */
  lemma ClaimAndWait(cfg: Config, s0: State, s: State, id: nat, n: nat, m: nat) returns (s': State)
    requires cfg.Valid() && Reaches(cfg, s0, s) && Lone(s, id, n) && Due(cfg, s, id) && m < |s.relays|
    requires Holders(s, m, id, n)
    ensures Reaches(cfg, s0, s') && Lone(s', id, n) && Due(cfg, s', id) && |s'.relays| == |s.relays|
    ensures Holders(s', m + 1, id, n)
  {
    var claim, tick := Action.Claim(m, {}), Action.Tick(cfg.staleTimeout);
    OnlyRowSelected(s.tables, cfg.staleTimeout, s.now, cfg.batchSize, id);
    var s1 := Do(cfg, s, claim);
    ReachesMore(cfg, s0, s, claim);
    StepConsistent(cfg, s, claim);
    StepHasEffect(cfg, s, claim);
    var batch := [s.tables.outbox[id]];
    assert Ids(batch) == [id];
    assert s1.relays[m] == Holding(s.now, batch, map[]);
    s' := Do(cfg, s1, tick);
    ReachesMore(cfg, s0, s1, tick);
    StepConsistent(cfg, s1, tick);
    assert s'.tables == s1.tables && s'.relays == s1.relays;
    forall r | 0 <= r < m + 1 ensures HoldsCopy(s'.relays[r], id, n) {
      if r < m { assert HoldsCopy(s.relays[r], id, n); }
    }
  }

  lemma LoneFailureIsLawful(cfg: Config, h: RelayState, id: nat, n: nat)
    requires cfg.Valid() && h.Holding? && |h.batch| == 1 && h.batch[0].id == id && h.batch[0].retries == n
    requires n + 1 < cfg.maxRetries && h.attempts == map[id := Refused(Sending)]
    ensures Lawful(cfg, h.batch, h.attempts, NOTHING.(failed := [(id, n)]))
  {
    var l := NOTHING.(failed := [(id, n)]);
    assert Ids(h.batch) == [id] && FailedIds(l.failed) == [id] && Ids([]) == [];
    assert h.batch[0] in h.batch;
    forall m | m in h.batch ensures Justified(cfg, h.attempts, l, m) {
      assert (id, n) in l.failed;
    }
  }

  /** The last relay that holds a copy reports the failure of its send. */
  lemma FailAndCommit(cfg: Config, s0: State, s: State, id: nat, n: nat, rows: nat, m: nat) returns (s': State)
    requires cfg.Valid() && Reaches(cfg, s0, s) && Lone(s, id, rows) && 0 < m <= |s.relays|
    requires Holders(s, m, id, n) && n + 1 < cfg.maxRetries
    ensures Reaches(cfg, s0, s') && Lone(s', id, rows + 1) && |s'.relays| == |s.relays|
    ensures Holders(s', m - 1, id, n)
    ensures s'.now == s.now && s'.tables.outbox[id].retryAfter.Some?
            && s'.tables.outbox[id].retryAfter.value <= s.now + cfg.maxBackoff
  {
    var r := m - 1;
    assert HoldsCopy(s.relays[r], id, n);
    var send := Action.Publish(r, 0, Refused(Sending));
    var s1 := Do(cfg, s, send);
    ReachesMore(cfg, s0, s, send);
    StepConsistent(cfg, s, send);
    assert s1.relays[r].attempts == map[id := Refused(Sending)];
    LoneFailureIsLawful(cfg, s1.relays[r], id, n);
    s' := CommitFailure(cfg, s0, s1, r, id, n, rows);
    forall q | 0 <= q < m - 1 ensures HoldsCopy(s'.relays[q], id, n) {
      assert HoldsCopy(s.relays[q], id, n);
    }
  }

  lemma CommitFailure(cfg: Config, s0: State, s: State, r: nat, id: nat, n: nat, rows: nat) returns (s': State)
    requires cfg.Valid() && Reaches(cfg, s0, s) && Lone(s, id, rows) && Holds(s, r)
    requires Lawful(cfg, s.relays[r].batch, s.relays[r].attempts, NOTHING.(failed := [(id, n)]))
    ensures Reaches(cfg, s0, s') && Lone(s', id, rows + 1) && s'.relays == s.relays[r := Idle] && s'.now == s.now
    ensures s'.tables.outbox[id].retryAfter.Some? && s'.tables.outbox[id].retryAfter.value <= s.now + cfg.maxBackoff
  {
    var l := NOTHING.(failed := [(id, n)]);
    var commit := Action.Commit(r, l, [0.0]);
    s' := Do(cfg, s, commit);
    ReachesMore(cfg, s0, s, commit);
    StepConsistent(cfg, s, commit);
    StepHasEffect(cfg, s, commit);
    assert FailedIds(l.failed) == [id] && Ids(l.exceeded) == [];
    assert id in s.tables.outbox.Keys && id in s'.tables.outbox;
    assert RowSettled(cfg, l, s.now, s.tables.outbox[id], s'.tables.outbox[id]);
    assert s'.tables.outbox.Keys == {id};
  }

  lemma WaitOut(cfg: Config, s0: State, s: State, id: nat, n: nat) returns (s': State)
    requires cfg.Valid() && Reaches(cfg, s0, s) && Lone(s, id, n)
    requires s.tables.outbox[id].retryAfter.Some? && s.tables.outbox[id].retryAfter.value <= s.now + cfg.maxBackoff
    ensures Reaches(cfg, s0, s') && Lone(s', id, n) && Due(cfg, s', id) && s'.relays == s.relays
  {
    var tick := Action.Tick(cfg.maxBackoff);
    s' := Do(cfg, s, tick);
    ReachesMore(cfg, s0, s, tick);
    StepConsistent(cfg, s, tick);
  }

  /** One relay alone brings the row to `n` retries. */
  lemma {:induction false} RetriedAlone(cfg: Config, s0: State, s: State, id: nat, n: nat) returns (s': State)
    requires cfg.Valid() && Reaches(cfg, s0, s) && Lone(s, id, 0) && Due(cfg, s, id) && |s.relays| >= 1
    requires Holders(s, 0, id, n) && n + 1 < cfg.maxRetries
    ensures Reaches(cfg, s0, s') && Lone(s', id, n) && Due(cfg, s', id) && |s'.relays| == |s.relays|
    ensures forall r :: 0 <= r < |s'.relays| ==> s'.relays[r].Idle?
    decreases n
  {
    s' := s;
    if n > 0 {
      var a := RetriedAlone(cfg, s0, s, id, n - 1);
      var b := ClaimAndWait(cfg, s0, a, id, n - 1, 0);
      var c := FailAndCommit(cfg, s0, b, id, n - 1, n - 1, 1);
      s' := WaitOut(cfg, s0, c, id, n);
    }
  }

  /** `m` relays claim the row, each after the claim before it has become stale. */
  lemma {:induction false} ClaimedByMany(cfg: Config, s0: State, s: State, id: nat, n: nat, m: nat) returns (s': State)
    requires cfg.Valid() && Reaches(cfg, s0, s) && Lone(s, id, n) && Due(cfg, s, id) && m <= |s.relays|
             && Holders(s, 0, id, n)
    ensures Reaches(cfg, s0, s') && Lone(s', id, n) && Due(cfg, s', id) && |s'.relays| == |s.relays|
            && Holders(s', m, id, n)
    decreases m
  {
    s' := s;
    if m > 0 {
      var a := ClaimedByMany(cfg, s0, s, id, n, m - 1);
      s' := ClaimAndWait(cfg, s0, a, id, n, m - 1);
    }
  }

  /** They all report a failure, and each report counts. */
  lemma {:induction false} ReportedByMany(cfg: Config, s0: State, s: State, id: nat, n: nat, rows: nat, m: nat)
      returns (s': State)
    requires cfg.Valid() && Reaches(cfg, s0, s) && Lone(s, id, rows) && m <= |s.relays| && Holders(s, m, id, n)
             && n + 1 < cfg.maxRetries
    ensures Reaches(cfg, s0, s') && Lone(s', id, rows + m)
    decreases m
  {
    s' := s;
    if m > 0 {
      var a := FailAndCommit(cfg, s0, s, id, n, rows, m);
      s' := ReportedByMany(cfg, s0, a, id, n, rows + 1, m - 1);
    }
  }

  ghost predicate ReachesBound(cfg: Config, k: nat, now: real, run: seq<Action>, id: nat) {
    && CanAll(cfg, Start(k, now), run)
    && id in DoAll(cfg, Start(k, now), run).tables.outbox
    && DoAll(cfg, Start(k, now), run).tables.outbox[id].retries == cfg.maxRetries + k - 2
  }

  lemma Enqueued(cfg: Config, k: nat, now: real) returns (s: State)
    requires cfg.Valid() && k >= 1
    ensures Reaches(cfg, Start(k, now), s) && Lone(s, 0, 0) && Due(cfg, s, 0) && |s.relays| == k && Holders(s, 0, 0, 0)
  {
    var p := Payload(0, "", "", "", "", None, None, "", None, None, None, CURRENT_SCHEMA_VERSION);
    var s0, a := Start(k, now), Action.Enqueue(p);
    StartConsistent(k, now);
    assert CanAll(cfg, s0, []) && DoAll(cfg, s0, []) == s0;
    s := Do(cfg, s0, a);
    ReachesMore(cfg, s0, s0, a);
    StepConsistent(cfg, s0, a);
  }

  /** For any number of relays and any limit of at least two, some run takes a row to
      `max_retries + k - 2` retries. */
  lemma BoundIsReached(cfg: Config, k: nat, now: real)
    requires cfg.Valid() && k >= 1 && cfg.maxRetries >= 2
    ensures exists run, id :: ReachesBound(cfg, k, now, run, id)
  {
    var s0, n := Start(k, now), cfg.maxRetries - 2;
    var a := Enqueued(cfg, k, now);
    var b := RetriedAlone(cfg, s0, a, 0, n);
    var c := ClaimedByMany(cfg, s0, b, 0, n, k);
    var d := ReportedByMany(cfg, s0, c, 0, n, n, k);
    var run :| CanAll(cfg, s0, run) && DoAll(cfg, s0, run) == d;
    assert 0 in d.tables.outbox.Keys;
    assert ReachesBound(cfg, k, now, run, 0);
  }
}
