/** When a claimed row is safe from the other relays. */
module ExclusiveClaim {
  import opened Types
  import opened Engine
  import opened Selector
  import opened Protocol

  /** The claim stamps `updated_at` only. Until the stamp is stale, that keeps other relays
      away from a row if and only if the row was not waiting for a retry. */
  lemma ClaimShieldsIff(cfg: Config, row: Row, now: real, later: real)
    requires cfg.Valid() && Pending(row, now, cfg.staleTimeout) && now <= later < now + cfg.staleTimeout
    requires row.retryAfter.Some? ==> row.retryAfter.value <= now
    ensures !Pending(row.(updatedAt := Some(now)), later, cfg.staleTimeout) <==> row.retryAfter.None?
  {
  }

  /** `retry_after`, once set, is cleared by nothing but a reset. */
  lemma RetryAfterStays(cfg: Config, s: State, a: Action, t': Tables, id: nat)
    requires Consistent(s) && Can(cfg, s, a) && !a.ResetRetries? && StepEffect(cfg, s, a, t')
    requires id in s.tables.outbox && id in t'.outbox && s.tables.outbox[id].retryAfter.Some?
    ensures t'.outbox[id].retryAfter.Some?
  {
    if a.Commit? {
      assert RowSettled(cfg, a.lists, s.now, s.tables.outbox[id], t'.outbox[id]);
    }
  }

  /** Every relay that holds a batch is still within the stale timeout of its stamp. */
  ghost predicate Timely(cfg: Config, s: State) {
    forall r :: 0 <= r < |s.relays| && s.relays[r].Holding? ==> s.now < s.relays[r].stamp + cfg.staleTimeout
  }

  ghost predicate TimelyRun(cfg: Config, s: State, run: seq<Action>)
    decreases |run|
  {
    run == [] ||
    (Can(cfg, s, run[0]) && !run[0].ResetRetries? && Timely(cfg, Do(cfg, s, run[0]))
     && TimelyRun(cfg, Do(cfg, s, run[0]), run[1..]))
  }

  lemma {:induction false} TimelyRunCan(cfg: Config, s: State, run: seq<Action>)
    requires TimelyRun(cfg, s, run)
    ensures CanAll(cfg, s, run)
    decreases |run|
  {
    if run != [] { TimelyRunCan(cfg, Do(cfg, s, run[0]), run[1..]); }
  }

  ghost predicate HasCopy(h: RelayState, id: nat) {
    h.Holding? && exists i :: 0 <= i < |h.batch| && h.batch[i].id == id
  }

  /** While its claimant holds it, a first-time row is as the claim left it; a row that was
      waiting for a retry still shows that it was. */
  ghost predicate CopyCurrent(t: Tables, h: RelayState, m: Row)
    requires h.Holding?
  {
    m.id in t.outbox ==>
      if m.retryAfter.None?
      then t.outbox[m.id].retryAfter.None? && t.outbox[m.id].updatedAt == Some(h.stamp)
      else t.outbox[m.id].retryAfter.Some?
  }

  ghost predicate CopiesCurrent(t: Tables, h: RelayState) {
    h.Holding? ==> forall i :: 0 <= i < |h.batch| ==> CopyCurrent(t, h, h.batch[i])
  }

  ghost predicate Apart(h: RelayState, g: RelayState) {
    h.Holding? ==> forall i :: 0 <= i < |h.batch| && h.batch[i].retryAfter.None? ==> !HasCopy(g, h.batch[i].id)
  }

  ghost predicate Exclusive(s: State) {
    && Consistent(s)
    && (forall r :: 0 <= r < |s.relays| ==> CopiesCurrent(s.tables, s.relays[r]))
    && (forall r, q :: 0 <= r < |s.relays| && 0 <= q < |s.relays| && r != q ==> Apart(s.relays[r], s.relays[q]))
  }

  /** A commit touches only rows the committing relay holds. */
  lemma CommitTouchesOwn(cfg: Config, t: Tables, h: RelayState, l: Lists, now: real, t': Tables, id: nat)
    requires CopiesFit(t, h) && CommitEffect(cfg, t, h, l, now, t') && Lawful(cfg, h.batch, h.attempts, l)
    requires id in t'.outbox && !HasCopy(h, id)
    ensures id in t.outbox && t'.outbox[id] == t.outbox[id]
  {
    IncreasingIsUnique(h.batch);
    OneList(cfg, h.batch, h.attempts, l, id);
    assert RowSettled(cfg, l, now, t.outbox[id], t'.outbox[id]);
    forall m | m in h.batch ensures m.id != id {
      var i :| 0 <= i < |h.batch| && h.batch[i] == m;
    }
  }

  /** The rows a relay holds do not change under it: `g` is the relay that acts. */
  lemma OthersStayCurrent(cfg: Config, s: State, a: Action, t': Tables, q: nat)
    requires Exclusive(s) && Timely(cfg, s) && Can(cfg, s, a) && !a.ResetRetries? && StepEffect(cfg, s, a, t')
    requires q < |s.relays| && (a.Commit? ==> a.relay != q)
    ensures CopiesCurrent(t', s.relays[q])
  {
    var h := s.relays[q];
    if h.Holding? {
      StepEvolves(cfg, s, a, t');
      forall i | 0 <= i < |h.batch| ensures CopyCurrent(t', h, h.batch[i]) {
        var m := h.batch[i];
        assert CopiesFit(s.tables, h) && CopyFits(s.tables, m) && CopyCurrent(s.tables, h, m);
        if m.id in t'.outbox {
          if m.retryAfter.Some? {
            RetryAfterStays(cfg, s, a, t', m.id);
          } else if a.Commit? {
            assert Apart(h, s.relays[a.relay]);
            CommitTouchesOwn(cfg, s.tables, s.relays[a.relay], a.lists, s.now, t', m.id);
          } else if a.Claim? {
            NotClaimed(cfg, s, a.locked, t', q, i);
          }
        }
      }
    }
  }

  /** A first-time row that some relay holds is not up for claiming. */
  lemma NotClaimed(cfg: Config, s: State, locked: set<nat>, t': Tables, q: nat, i: nat)
    requires Exclusive(s) && Timely(cfg, s) && Holds(s, q) && i < |s.relays[q].batch|
    requires s.relays[q].batch[i].retryAfter.None?
    requires ClaimEffect(cfg, s.tables, Selected(s.tables, locked, cfg.staleTimeout, s.now, cfg.batchSize), s.now, t')
    ensures s.relays[q].batch[i].id !in Ids(Selected(s.tables, locked, cfg.staleTimeout, s.now, cfg.batchSize))
  {
    var batch, m := Selected(s.tables, locked, cfg.staleTimeout, s.now, cfg.batchSize), s.relays[q].batch[i];
    assert CopiesCurrent(s.tables, s.relays[q]) && CopyCurrent(s.tables, s.relays[q], m);
    forall j | 0 <= j < |batch| ensures batch[j].id != m.id {
      assert Pending(batch[j], s.now, cfg.staleTimeout);
    }
  }

  /** What a claim takes first-time is held by nobody else, and what others hold first-time
      it does not take. */
  lemma ClaimApart(cfg: Config, s: State, r: nat, locked: set<nat>, h: RelayState, t': Tables, q: nat)
    requires Exclusive(s) && Timely(cfg, s) && r < |s.relays| && q < |s.relays| && q != r
    requires h.Holding? && h.batch == Selected(s.tables, locked, cfg.staleTimeout, s.now, cfg.batchSize)
    requires ClaimEffect(cfg, s.tables, h.batch, s.now, t')
    ensures Apart(h, s.relays[q]) && Apart(s.relays[q], h)
  {
    var g := s.relays[q];
    if g.Holding? {
      forall i | 0 <= i < |g.batch| && g.batch[i].retryAfter.None? ensures !HasCopy(h, g.batch[i].id) {
        NotClaimed(cfg, s, locked, t', q, i);
        assert forall j :: 0 <= j < |h.batch| ==> Ids(h.batch)[j] == h.batch[j].id;
      }
      forall i | 0 <= i < |h.batch| && h.batch[i].retryAfter.None? ensures !HasCopy(g, h.batch[i].id) {
        assert Ids(h.batch)[i] == h.batch[i].id;
        forall j | 0 <= j < |g.batch| ensures g.batch[j].id != h.batch[i].id {
          assert CopiesCurrent(s.tables, g) && CopyCurrent(s.tables, g, g.batch[j]);
          if g.batch[j].retryAfter.None? { NotClaimed(cfg, s, locked, t', q, j); }
        }
      }
    }
  }

  lemma ClaimCurrent(cfg: Config, t: Tables, h: RelayState, t': Tables)
    requires h.Holding? && ClaimEffect(cfg, t, h.batch, h.stamp, t')
    ensures CopiesCurrent(t', h)
  {
    forall i | 0 <= i < |h.batch| ensures CopyCurrent(t', h, h.batch[i]) {
      assert Ids(h.batch)[i] == h.batch[i].id;
    }
  }

  lemma StepExclusive(cfg: Config, s: State, a: Action)
    requires cfg.Valid() && Exclusive(s) && Timely(cfg, s) && Can(cfg, s, a) && !a.ResetRetries?
    ensures Exclusive(Do(cfg, s, a))
  {
    var s' := Do(cfg, s, a);
    StepConsistent(cfg, s, a);
    StepHasEffect(cfg, s, a);
    forall q | 0 <= q < |s'.relays| ensures CopiesCurrent(s'.tables, s'.relays[q]) {
      if a.Claim? && a.relay == q {
        ClaimCurrent(cfg, s.tables, s'.relays[q], s'.tables);
      } else if a.Commit? && a.relay == q {
      } else {
        OthersStayCurrent(cfg, s, a, s'.tables, q);
      }
    }
    forall r, q | 0 <= r < |s'.relays| && 0 <= q < |s'.relays| && r != q ensures Apart(s'.relays[r], s'.relays[q]) {
      assert Apart(s.relays[r], s.relays[q]);
      if a.Claim? {
        if a.relay == r {
          ClaimApart(cfg, s, r, a.locked, s'.relays[r], s'.tables, q);
        } else if a.relay == q {
          ClaimApart(cfg, s, q, a.locked, s'.relays[q], s'.tables, r);
        }
      }
    }
  }

  lemma {:induction false} RunExclusive(cfg: Config, s: State, run: seq<Action>)
    requires cfg.Valid() && Exclusive(s) && Timely(cfg, s) && TimelyRun(cfg, s, run)
    ensures CanAll(cfg, s, run) && Exclusive(DoAll(cfg, s, run))
    decreases |run|
  {
    if run != [] {
      StepExclusive(cfg, s, run[0]);
      RunExclusive(cfg, Do(cfg, s, run[0]), run[1..]);
    }
  }

  /** If every relay commits or crashes within the stale timeout of its stamp and nobody
      resets rows, a row claimed with `retry_after` NULL is held by that relay alone. */
  lemma FirstClaimIsExclusive(cfg: Config, k: nat, now: real, run: seq<Action>, r: nat, q: nat, i: nat)
    requires cfg.Valid() && TimelyRun(cfg, Start(k, now), run) && CanAll(cfg, Start(k, now), run)
    requires var s := DoAll(cfg, Start(k, now), run);
             && r != q && Holds(s, r) && q < |s.relays|
             && i < |s.relays[r].batch| && s.relays[r].batch[i].retryAfter.None?
    ensures var s := DoAll(cfg, Start(k, now), run);
            !HasCopy(s.relays[q], s.relays[r].batch[i].id)
  {
    StartConsistent(k, now);
    RunExclusive(cfg, Start(k, now), run);
    var s := DoAll(cfg, Start(k, now), run);
    assert Apart(s.relays[r], s.relays[q]);
  }
}
