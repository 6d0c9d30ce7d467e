/** How far stale copies can push a row's retry count past the limit. */
module RetryBound {
  import opened Types
  import opened Engine
  import opened Replay
  import opened Protocol

  /** This relay holds a copy of the row that it may still report as failed. */
  ghost predicate MayRaise(cfg: Config, h: RelayState, id: nat) {
    h.Holding? && exists i :: 0 <= i < |h.batch| && h.batch[i].id == id && h.batch[i].retries + 1 < cfg.maxRetries
  }

  ghost function Raisers(cfg: Config, relays: seq<RelayState>, id: nat): (n: nat)
    ensures n <= |relays|
  {
    if relays == [] then 0
    else (if MayRaise(cfg, relays[0], id) then 1 else 0) + Raisers(cfg, relays[1..], id)
  }

  lemma {:induction false} RaisersUpdate(cfg: Config, relays: seq<RelayState>, r: nat, h: RelayState, id: nat)
    requires r < |relays|
    ensures Raisers(cfg, relays[r := h], id) - (if MayRaise(cfg, h, id) then 1 else 0)
            == Raisers(cfg, relays, id) - (if MayRaise(cfg, relays[r], id) then 1 else 0)
    decreases |relays|
  {
    var relays' := relays[r := h];
    if r == 0 {
      assert relays'[1..] == relays[1..];
    } else {
      assert relays'[1..] == relays[1..][r - 1 := h];
      RaisersUpdate(cfg, relays[1..], r - 1, h, id);
    }
  }

  lemma {:induction false} NoRaisers(cfg: Config, relays: seq<RelayState>, id: nat)
    requires forall r :: 0 <= r < |relays| ==> !MayRaise(cfg, relays[r], id)
    ensures Raisers(cfg, relays, id) == 0
    decreases |relays|
  {
    if relays != [] {
      assert forall r :: 0 <= r < |relays[1..]| ==> relays[1..][r] == relays[r + 1];
      NoRaisers(cfg, relays[1..], id);
    }
  }

  /** A row's retries and the copies that may still raise them stay together below the bound. */
  ghost predicate Bounded(cfg: Config, s: State, id: nat)
    requires id in s.tables.outbox
  {
    s.tables.outbox[id].retries + Raisers(cfg, s.relays, id) + 2 <= cfg.maxRetries + |s.relays|
  }

  ghost predicate AllBounded(cfg: Config, s: State) {
    Consistent(s) && |s.relays| >= 1 && forall id :: id in s.tables.outbox ==> Bounded(cfg, s, id)
  }

  lemma NewRowBounded(cfg: Config, s: State, id: nat)
    requires cfg.Valid() && Consistent(s) && |s.relays| >= 1 && id >= s.tables.nextRow
    ensures Raisers(cfg, s.relays, id) == 0
  {
    forall r | 0 <= r < |s.relays| ensures !MayRaise(cfg, s.relays[r], id) {
      assert CopiesFit(s.tables, s.relays[r]);
    }
    NoRaisers(cfg, s.relays, id);
  }

  /** With a limit of one no copy may raise anything. */
  lemma ResetBounded(cfg: Config, s: State, id: nat)
    requires cfg.Valid() && |s.relays| >= 1
    ensures Raisers(cfg, s.relays, id) + 2 <= cfg.maxRetries + |s.relays|
  {
    if cfg.maxRetries == 1 { NoRaisers(cfg, s.relays, id); }
  }

  lemma FailedMayRaise(cfg: Config, h: RelayState, l: Lists, id: nat)
    requires h.Holding? && Lawful(cfg, h.batch, h.attempts, l) && UniqueIds(h.batch) && id in FailedIds(l.failed)
    ensures MayRaise(cfg, h, id)
  {
    OneList(cfg, h.batch, h.attempts, l, id);
    assert id in Classified(l);
    var m :| m in h.batch && m.id == id;
    LawfulReadsBack(cfg, h.batch, h.attempts, l, m);
    var i :| 0 <= i < |h.batch| && h.batch[i] == m;
  }

  lemma ClaimBounded(cfg: Config, s: State, r: nat, h: RelayState, t': Tables, id: nat)
    requires AllBounded(cfg, s) && r < |s.relays| && s.relays[r].Idle? && h.Holding?
    requires ClaimEffect(cfg, s.tables, h.batch, s.now, t') && id in t'.outbox
    ensures t'.outbox[id].retries + Raisers(cfg, s.relays[r := h], id) + 2 <= cfg.maxRetries + |s.relays|
  {
    RaisersUpdate(cfg, s.relays, r, h, id);
    assert Bounded(cfg, s, id);
    assert |s.relays[r := h]| == |s.relays|;
  }

  lemma CommitBounded(cfg: Config, s: State, r: nat, l: Lists, t': Tables, id: nat)
    requires AllBounded(cfg, s) && Holds(s, r) && Lawful(cfg, s.relays[r].batch, s.relays[r].attempts, l)
    requires CommitEffect(cfg, s.tables, s.relays[r], l, s.now, t') && id in t'.outbox
    ensures t'.outbox[id].retries + Raisers(cfg, s.relays[r := Idle], id) + 2 <= cfg.maxRetries + |s.relays|
  {
    RaisersUpdate(cfg, s.relays, r, Idle, id);
    assert Bounded(cfg, s, id);
    assert RowSettled(cfg, l, s.now, s.tables.outbox[id], t'.outbox[id]);
    if id in FailedIds(l.failed) {
      assert CopiesFit(s.tables, s.relays[r]);
      IncreasingIsUnique(s.relays[r].batch);
      FailedMayRaise(cfg, s.relays[r], l, id);
    }
  }

  lemma StepBounded(cfg: Config, s: State, a: Action)
    requires cfg.Valid() && Can(cfg, s, a) && AllBounded(cfg, s)
    ensures AllBounded(cfg, Do(cfg, s, a))
  {
    var s' := Do(cfg, s, a);
    StepHasEffect(cfg, s, a);
    StepConsistent(cfg, s, a);
    forall id | id in s'.tables.outbox ensures Bounded(cfg, s', id) {
      match a
      case Claim(r, _) => ClaimBounded(cfg, s, r, s'.relays[r], s'.tables, id);
      case Commit(r, l, _) => CommitBounded(cfg, s, r, l, s'.tables, id);
      case Publish(r, _, _) =>
        RaisersUpdate(cfg, s.relays, r, s'.relays[r], id);
        assert Bounded(cfg, s, id);
      case Crash(r) =>
        RaisersUpdate(cfg, s.relays, r, Idle, id);
        assert Bounded(cfg, s, id);
      case Enqueue(_) =>
        if id == s.tables.nextRow { NewRowBounded(cfg, s, id); } else { assert Bounded(cfg, s, id); }
      case ReplayDead(_, _) =>
        if id in s.tables.outbox {
          assert Bounded(cfg, s, id);
        } else {
          assert ComesBack(s.tables, s'.tables, s.now, id);
          NewRowBounded(cfg, s, id);
        }
      case ResetRetries(_) =>
        assert Bounded(cfg, s, id);
        ResetBounded(cfg, s, id);
      case _ =>
        assert Bounded(cfg, s, id);
    }
  }

  lemma {:induction false} RunBounded(cfg: Config, s: State, run: seq<Action>)
    requires cfg.Valid() && AllBounded(cfg, s) && CanAll(cfg, s, run)
    ensures AllBounded(cfg, DoAll(cfg, s, run)) && |DoAll(cfg, s, run).relays| == |s.relays|
    decreases |run|
  {
    if run != [] {
      StepBounded(cfg, s, run[0]);
      RunBounded(cfg, Do(cfg, s, run[0]), run[1..]);
    }
  }

  /** With `k` relays no outbox row ever counts more than `max_retries + k - 2` retries. */
  lemma RetriesNeverExceed(cfg: Config, k: nat, now: real, run: seq<Action>, id: nat)
    requires cfg.Valid() && k >= 1 && CanAll(cfg, Start(k, now), run)
    requires id in DoAll(cfg, Start(k, now), run).tables.outbox
    ensures DoAll(cfg, Start(k, now), run).tables.outbox[id].retries <= cfg.maxRetries + k - 2
  {
    StartConsistent(k, now);
    RunBounded(cfg, Start(k, now), run);
    assert Bounded(cfg, DoAll(cfg, Start(k, now), run), id);
  }
}
