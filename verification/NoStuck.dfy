/** Every row the relay can read becomes eligible again in bounded time. */
module NoStuck {
  import opened Types
  import opened Selector
  import opened Replay
  import opened Protocol

  function Max(a: real, b: real): real { if a >= b then a else b }

  /** The longest a touched row can be out of reach. */
  function LongestWait(cfg: Config): real {
    Max(Max(cfg.maxBackoff, cfg.cooldown), cfg.staleTimeout)
  }

  ghost predicate Returns(cfg: Config, now: real, row: Row) {
    && (row.updatedAt.None? ==> row.retryAfter.None?)
    && (row.updatedAt.Some? ==> row.updatedAt.value <= now)
    && (row.updatedAt.Some? && row.retryAfter.Some? ==>
          row.retryAfter.value <= row.updatedAt.value + Max(cfg.maxBackoff, cfg.cooldown))
  }

  ghost predicate AllReturn(cfg: Config, s: State) {
    Consistent(s) && forall id :: id in s.tables.outbox ==> Returns(cfg, s.now, s.tables.outbox[id])
  }

  lemma StepReturns(cfg: Config, s: State, a: Action)
    requires cfg.Valid() && Can(cfg, s, a) && AllReturn(cfg, s)
    ensures AllReturn(cfg, Do(cfg, s, a))
  {
    var s' := Do(cfg, s, a);
    StepConsistent(cfg, s, a);
    StepHasEffect(cfg, s, a);
    forall id | id in s'.tables.outbox ensures Returns(cfg, s'.now, s'.tables.outbox[id]) {
      RowReturns(cfg, s, a, s'.tables, s'.now, id);
    }
  }

  lemma RowReturns(cfg: Config, s: State, a: Action, t': Tables, later: real, id: nat)
    requires cfg.Valid() && Can(cfg, s, a) && AllReturn(cfg, s) && StepEffect(cfg, s, a, t')
    requires id in t'.outbox && s.now <= later
    ensures Returns(cfg, later, t'.outbox[id])
  {
    if id in s.tables.outbox { assert Returns(cfg, s.now, s.tables.outbox[id]); }
    match a
    case Commit(r, l, _) => assert RowSettled(cfg, l, s.now, s.tables.outbox[id], t'.outbox[id]);
    case ReplayDead(_, _) =>
      if id !in s.tables.outbox { assert ComesBack(s.tables, t', s.now, id); }
    case _ =>
  }

  lemma {:induction false} RunReturns(cfg: Config, s: State, run: seq<Action>)
    requires cfg.Valid() && AllReturn(cfg, s) && CanAll(cfg, s, run)
    ensures AllReturn(cfg, DoAll(cfg, s, run))
    decreases |run|
  {
    if run != [] {
      StepReturns(cfg, s, run[0]);
      RunReturns(cfg, Do(cfg, s, run[0]), run[1..]);
    }
  }

  /** In every reachable state a row of a supported version is eligible at once if it was
      never touched, and otherwise no later than the longest wait after its last touch,
      and from then on until somebody touches it. */
  lemma NoRowIsStuck(cfg: Config, k: nat, now: real, run: seq<Action>, id: nat, at: real)
    requires cfg.Valid() && CanAll(cfg, Start(k, now), run)
    requires id in DoAll(cfg, Start(k, now), run).tables.outbox
    requires Supported(DoAll(cfg, Start(k, now), run).tables.outbox[id])
    ensures var row := DoAll(cfg, Start(k, now), run).tables.outbox[id];
            && (row.updatedAt.None? ==> row.retryAfter.None? && Pending(row, at, cfg.staleTimeout))
            && (row.updatedAt.Some? && row.updatedAt.value + LongestWait(cfg) <= at
                ==> Pending(row, at, cfg.staleTimeout))
  {
    StartConsistent(k, now);
    RunReturns(cfg, Start(k, now), run);
    assert Returns(cfg, DoAll(cfg, Start(k, now), run).now, DoAll(cfg, Start(k, now), run).tables.outbox[id]);
  }
}
