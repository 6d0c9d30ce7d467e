/** One turn of the relay's main loop and the loop itself (django_celery_outbox/relay/_relay.py,
    `_processing` and `start`), as what they make of the tables and of the policy. */
module Cycle {
  import opened Types
  import opened Policy
  import opened Engine
  import opened Serial
  import opened Parallel
  import opened Mutations
  import opened Selector

  /** What one batch comes to, by whichever loop the relay is configured for. */
  datatype Outcome = Outcome(
    lists: Lists,
    attempts: map<nat, Attempt>,
    policy: PolicyState,
    readings: nat,
    events: seq<Event>,
    seen: Option<Sighting>)

  ghost function BatchOutcome(cfg: Config, w: World, ms: seq<Row>, p: PolicyState, n: nat): Outcome
    requires cfg.Valid()
  {
    if cfg.publishConcurrency == 1 then
      var t := Fates(cfg, w, ms, p, n);
      Outcome(Listing(ms, t.fates), Attempts(w, ms, t.fates), t.policy, t.readings, t.events, t.seen)
    else
      var r := Run(cfg, w, ms, p, n);
      assert r.Valid() by { ParallelPartitions(cfg, w, ms, p, n); }
      Outcome(Listing(r.settled, r.fates), Attempts(w, r.settled, r.fates), r.policy, r.readings, r.events, r.seen)
  }

  /** Either way the outcome is a lawful account of the batch. */
  lemma {:induction false} OutcomeIsLawful(cfg: Config, w: World, ms: seq<Row>, p: PolicyState, n: nat)
    requires cfg.Valid() && UniqueIds(ms)
    ensures var o := BatchOutcome(cfg, w, ms, p, n); Lawful(cfg, ms, o.attempts, o.lists)
  {
    if cfg.publishConcurrency == 1 {
      SerialIsLawful(cfg, w, ms, p, n);
    } else {
      ParallelIsLawful(cfg, w, ms, p, n);
    }
  }

  /** An exception in either transaction; `start` catches it and goes on. */
  datatype Fault = NoFault | ClaimFails | CommitFails

  /** What one turn of the main loop meets: what other sessions commit before it and between
      its two transactions, the rows they hold locked, the database's clock, the answers of
      `random.uniform`. */
  datatype Turn = Turn(
    world: World,
    before: Tables -> Tables,
    between: Tables -> Tables,
    locked: set<nat>,
    checkAt: real,
    claimAt: real,
    commitAt: real,
    jitter: nat -> real,
    fault: Fault)
  {
    function Jitters(n: nat): (r: seq<real>)
      ensures |r| == n && forall i :: 0 <= i < n ==> r[i] == jitter(i)
    {
      seq(n, i requires 0 <= i < n => jitter(i))
    }
  }

  /** A relay's life so far: `events` is all it told its policy, `batches` all it worked on. */
  datatype Life = Life(tables: Tables, policy: PolicyState, readings: nat, events: seq<Event>, batches: seq<Outcome>)
  {
    function Read(cfg: Config, w: World): Life {
      this.(policy := Hear(cfg, w, policy, readings),
            readings := readings + 1,
            events := events + SignalEvents(w.signals(readings)))
    }

    function GateAt(now: real): Life {
      this.(policy := policy.Gated(now), events := events + [Gate(now)])
    }

    ghost function Worked(o: Outcome): Life {
      this.(policy := o.policy, readings := o.readings, events := events + o.events, batches := batches + [o])
    }
  }

  predicate Backlog(t: Tables, now: real, stale: real) {
    exists id | id in t.outbox :: Pending(t.outbox[id], now, stale)
  }

  /** A turn up to the check of the breaker. */
  function Gated(cfg: Config, e: Turn, s: Life): Life {
    s.Read(cfg, e.world).GateAt(e.world.clock(s.readings))
  }

  /** The turn claims a batch: the breaker lets it and the claim does not fail. */
  predicate Works(cfg: Config, e: Turn, s: Life) {
    !s.Read(cfg, e.world).policy.SkipsAt(e.world.clock(s.readings)) && e.fault != ClaimFails
  }

  /** The batch it claims and what that comes to. */
  function BatchOf(cfg: Config, e: Turn, s: Life): seq<Row> {
    Selected(s.tables, e.locked, cfg.staleTimeout, e.claimAt, cfg.batchSize)
  }

  ghost function TurnOutcome(cfg: Config, e: Turn, s: Life): Outcome
    requires cfg.Valid()
  {
    var gated := Gated(cfg, e, s);
    BatchOutcome(cfg, e.world, BatchOf(cfg, e, s), gated.policy, gated.readings)
  }

  /** The first transaction and the sends. */
  ghost function Claimed(cfg: Config, e: Turn, s: Life): Life
    requires cfg.Valid()
  {
    Gated(cfg, e, s).Worked(TurnOutcome(cfg, e, s)).(tables := Stamped(s.tables, BatchOf(cfg, e, s), e.claimAt))
  }

  /** The second transaction, on the tables as it finds them. */
  function Committed(cfg: Config, e: Turn, t: Tables, o: Outcome): Tables {
    if e.fault == CommitFails then t else Settle(cfg, t, o.lists, e.Jitters(|o.lists.failed|), e.commitAt)
  }

  /** `_processing` */
  ghost function Processed(cfg: Config, e: Turn, s: Life): Life
    requires cfg.Valid()
  {
    if !Works(cfg, e, s) then Gated(cfg, e, s)
    else
      var c := Claimed(cfg, e, s);
      c.(tables := Committed(cfg, e, e.between(c.tables), TurnOutcome(cfg, e, s)))
  }

  /** The guard of the main loop, its clock reading included, and its verdict. */
  function Guarded(cfg: Config, e: Turn, s: Life): (Life, bool) {
    var here := s.(tables := e.before(s.tables));
    if s.policy.shutdownDeadline.None? then (here, true)
    else
      var r := here.Read(cfg, e.world);
      (r, !r.policy.DeadlineExceeded(e.world.clock(s.readings)) && Backlog(here.tables, e.checkAt, cfg.staleTimeout))
  }

  /** The life of a relay that goes on from `s`. */
  ghost function Lived(cfg: Config, script: seq<Turn>, s: Life): Life
    requires cfg.Valid()
    decreases |script|
  {
    if script == [] then s
    else
      var (here, goes) := Guarded(cfg, script[0], s);
      if goes then Lived(cfg, script[1..], Processed(cfg, script[0], here)) else here
  }

  function Born(t: Tables): Life { Life(t, FRESH, 0, [], []) }
}
