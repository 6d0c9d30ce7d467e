/** A row put off by a failure or an outage waits its time: over runs, no relay claims it
    before, and any may claim it from then on. */
module Waits {
  import opened Types
  import opened Backoff
  import opened Engine
  import opened Mutations
  import opened Selector
  import opened Protocol
  import opened NoStuck

  /** Nobody resets the row or commits anything about it. */
  ghost predicate LeavesAlone(a: Action, id: nat) {
    && (a.ResetRetries? ==> id !in a.ids)
    && (a.Commit? ==>
          && id !in a.lists.published && id !in FailedIds(a.lists.failed)
          && id !in Ids(a.lists.exceeded) && id !in a.lists.deferred)
  }

  /** The row is stored, was touched, and is due at `due`. */
  ghost predicate WaitsUntil(s: State, id: nat, due: real) {
    && id in s.tables.outbox
    && s.tables.outbox[id].updatedAt.Some? && s.tables.outbox[id].retryAfter == Some(due)
  }

  lemma StepKeepsWaiting(cfg: Config, s: State, a: Action, id: nat, due: real)
    requires cfg.Valid() && Consistent(s) && Can(cfg, s, a) && LeavesAlone(a, id) && WaitsUntil(s, id, due)
    ensures WaitsUntil(Do(cfg, s, a), id, due)
  {
    StepHasEffect(cfg, s, a);
    var t' := Do(cfg, s, a).tables;
    if a.Commit? {
      assert RowSettled(cfg, a.lists, s.now, s.tables.outbox[id], t'.outbox[id]);
    }
  }

  lemma {:induction false} RunKeepsWaiting(cfg: Config, s: State, run: seq<Action>, id: nat, due: real)
    requires cfg.Valid() && Consistent(s) && CanAll(cfg, s, run) && WaitsUntil(s, id, due)
    requires forall i :: 0 <= i < |run| ==> LeavesAlone(run[i], id)
    ensures Consistent(DoAll(cfg, s, run)) && WaitsUntil(DoAll(cfg, s, run), id, due)
    decreases |run|
  {
    if run != [] {
      StepKeepsWaiting(cfg, s, run[0], id, due);
      StepConsistent(cfg, s, run[0]);
      RunKeepsWaiting(cfg, Do(cfg, s, run[0]), run[1..], id, due);
    }
  }

  /** Whatever else happens: while nobody resets or commits it, a waiting row is never claimed
      before it is due, and is eligible at every time from then on. */
  lemma {:induction false} NotClaimedBeforeDue(cfg: Config, s: State, run: seq<Action>, id: nat, due: real,
                                               locked: set<nat>)
    requires cfg.Valid() && Consistent(s) && CanAll(cfg, s, run) && WaitsUntil(s, id, due)
    requires forall i :: 0 <= i < |run| ==> LeavesAlone(run[i], id)
    ensures var s' := DoAll(cfg, s, run);
            && id in s'.tables.outbox
            && (s'.now < due ==>
                  id !in Ids(Selected(s'.tables, locked, cfg.staleTimeout, s'.now, cfg.batchSize)))
            && (s'.now >= due && s'.tables.outbox[id].payload.schemaVersion == 1 ==>
                  Eligible(s'.tables.outbox[id], s'.now, cfg.staleTimeout))
  {
    RunKeepsWaiting(cfg, s, run, id, due);
    var s' := DoAll(cfg, s, run);
    var rows := Selected(s'.tables, locked, cfg.staleTimeout, s'.now, cfg.batchSize);
    ClaimedIffEligible(s'.tables, locked, cfg.staleTimeout, s'.now, cfg.batchSize, s'.tables.outbox[id]);
    SelectedAreTheOldestFree(s'.tables, locked, cfg.staleTimeout, s'.now, cfg.batchSize);
    forall i | 0 <= i < |rows| ensures rows[i].id == id ==> rows[i] == s'.tables.outbox[id] {
      assert rows[i] in rows;
    }
  }

  /** The state a commit leads to. */
  ghost function Committed(cfg: Config, s: State, r: nat, l: Lists, jitters: seq<real>): State
    requires Can(cfg, s, Action.Commit(r, l, jitters))
  {
    Do(cfg, s, Action.Commit(r, l, jitters))
  }

  /** An outage puts its rows off for the cooldown, and a failure for its own delay: the row
      keeps its place in the table, and that is how long it waits. */
  lemma {:induction false} CommitMakesWait(cfg: Config, s: State, r: nat, l: Lists, jitters: seq<real>, id: nat)
    requires cfg.Valid() && Consistent(s) && Can(cfg, s, Action.Commit(r, l, jitters)) && id in s.tables.outbox
    ensures var s' := Committed(cfg, s, r, l, jitters);
            && (id in l.deferred ==> WaitsUntil(s', id, s.now + cfg.cooldown))
            && (forall i :: 0 <= i < |l.failed| && l.failed[i].0 == id ==>
                  && id in s'.tables.outbox
                  && DueAfterFailure(cfg, l.failed[i].1, jitters[i], s.now, s'.tables.outbox[id].retryAfter)
                  && WaitsUntil(s', id, s'.tables.outbox[id].retryAfter.value))
  {
    IncreasingIsUnique(s.relays[r].batch);
    LawfulIsDisjoint(cfg, s.relays[r].batch, s.relays[r].attempts, l);
    FailedOnce(cfg, s.relays[r].batch, s.relays[r].attempts, l);
    SettledIs(cfg, s.tables, l, jitters, s.now, id);
  }

  lemma FailedOnce(cfg: Config, batch: seq<Row>, attempts: map<nat, Attempt>, l: Lists)
    requires Lawful(cfg, batch, attempts, l) && UniqueIds(batch)
    ensures forall j, k :: 0 <= j < k < |l.failed| ==> l.failed[j].0 != l.failed[k].0
  {
    var ids := FailedIds(l.failed);
    forall j, k | 0 <= j < k < |l.failed| ensures l.failed[j].0 != l.failed[k].0 {
      OneList(cfg, batch, attempts, l, ids[j]);
      if ids[j] == ids[k] { TwiceInMultiset(ids, j, k); }
    }
  }

  /** In every run: a deferred row is not claimed again within the cooldown, and may be claimed
      from then on, unless somebody resets it or commits something about it first. */
  lemma {:induction false} DeferredRowWaits(cfg: Config, k: nat, start: real, run: seq<Action>, r: nat, l: Lists,
                                            jitters: seq<real>, more: seq<Action>, id: nat, locked: set<nat>)
    requires cfg.Valid() && CanAll(cfg, Start(k, start), run)
    requires var s := DoAll(cfg, Start(k, start), run);
             && Can(cfg, s, Action.Commit(r, l, jitters)) && id in s.tables.outbox && id in l.deferred
             && CanAll(cfg, Committed(cfg, s, r, l, jitters), more)
    requires forall i :: 0 <= i < |more| ==> LeavesAlone(more[i], id)
    ensures var s := DoAll(cfg, Start(k, start), run);
            var s' := DoAll(cfg, Committed(cfg, s, r, l, jitters), more);
            && id in s'.tables.outbox
            && (s'.now < s.now + cfg.cooldown ==>
                  id !in Ids(Selected(s'.tables, locked, cfg.staleTimeout, s'.now, cfg.batchSize)))
            && (s'.now >= s.now + cfg.cooldown && s'.tables.outbox[id].payload.schemaVersion == 1 ==>
                  Eligible(s'.tables.outbox[id], s'.now, cfg.staleTimeout))
  {
    var s := DoAll(cfg, Start(k, start), run);
    StartConsistent(k, start);
    RunConsistent(cfg, Start(k, start), run);
    StepConsistent(cfg, s, Action.Commit(r, l, jitters));
    CommitMakesWait(cfg, s, r, l, jitters, id);
    NotClaimedBeforeDue(cfg, Committed(cfg, s, r, l, jitters), more, id, s.now + cfg.cooldown, locked);
  }

  /** In every run: a failed row likewise waits its own delay, the back-off time doubled once
      for each failure before plus its own jitter, or the cap. */
  lemma {:induction false} FailedRowWaits(cfg: Config, k: nat, start: real, run: seq<Action>, r: nat, l: Lists,
                                          jitters: seq<real>, more: seq<Action>, i: nat, locked: set<nat>)
    requires cfg.Valid() && CanAll(cfg, Start(k, start), run)
    requires var s := DoAll(cfg, Start(k, start), run);
             && Can(cfg, s, Action.Commit(r, l, jitters))
             && i < |l.failed| && l.failed[i].0 in s.tables.outbox
             && CanAll(cfg, Committed(cfg, s, r, l, jitters), more)
             && forall j :: 0 <= j < |more| ==> LeavesAlone(more[j], l.failed[i].0)
    ensures var s := DoAll(cfg, Start(k, start), run);
            var s' := DoAll(cfg, Committed(cfg, s, r, l, jitters), more);
            var id, raw := l.failed[i].0, (cfg.backoffTime * Pow2(l.failed[i].1)) as real + jitters[i];
            var due := s.now + if raw < cfg.maxBackoff then raw else cfg.maxBackoff;
            && id in s'.tables.outbox
            && (s'.now < due ==> id !in Ids(Selected(s'.tables, locked, cfg.staleTimeout, s'.now, cfg.batchSize)))
            && (s'.now >= due && s'.tables.outbox[id].payload.schemaVersion == 1 ==>
                  Eligible(s'.tables.outbox[id], s'.now, cfg.staleTimeout))
  {
    var s := DoAll(cfg, Start(k, start), run);
    StartConsistent(k, start);
    RunConsistent(cfg, Start(k, start), run);
    StepConsistent(cfg, s, Action.Commit(r, l, jitters));
    CommitMakesWait(cfg, s, r, l, jitters, l.failed[i].0);
    var s1 := Committed(cfg, s, r, l, jitters);
    NotClaimedBeforeDue(cfg, s1, more, l.failed[i].0, s1.tables.outbox[l.failed[i].0].retryAfter.value, locked);
  }

  /** In every reachable state no claim takes a row before its retry time. */
  lemma {:induction false} NoClaimBeforeRetryTime(cfg: Config, k: nat, start: real, run: seq<Action>, locked: set<nat>,
                                                  m: Row)
    requires cfg.Valid() && CanAll(cfg, Start(k, start), run)
    requires var s := DoAll(cfg, Start(k, start), run);
             m in Selected(s.tables, locked, cfg.staleTimeout, s.now, cfg.batchSize)
    ensures m.retryAfter.Some? ==> m.retryAfter.value <= DoAll(cfg, Start(k, start), run).now
    ensures m.updatedAt.None? ==> m.retryAfter.None?
  {
    var s := DoAll(cfg, Start(k, start), run);
    StartConsistent(k, start);
    RunConsistent(cfg, Start(k, start), run);
    SelectedAreTheOldestFree(s.tables, locked, cfg.staleTimeout, s.now, cfg.batchSize);
    ClaimedIffEligible(s.tables, locked, cfg.staleTimeout, s.now, cfg.batchSize, m);
    NoRowIsStuck(cfg, k, start, run, m.id, s.now);
  }
}
