/** How a relay's life ends: the deadline check that stops a batch, and what comes after it. */
module Shutdown {
  import opened Types
  import opened Policy
  import opened Engine
  import opened Serial
  import opened Parallel
  import opened ParallelBreaker
  import opened Cycle
  import opened Lifetime
  import Selector

  /** No signal is handled at the readings from `a` up to `b`. */
  ghost predicate Quiet(w: World, a: nat, b: nat) {
    forall n :: a <= n < b ==> w.signals(n) == []
  }

  /** `x` is one of the readings from `n` up to `b` of a batch that began with the policy `p`
      and told it `h`: with what it had been told by then, the policy had the deadline passed
      at that reading, and unless a signal came later its last state `q` still does. */
  ghost predicate Sighted(cfg: Config, w: World, p: PolicyState, n: nat, x: Sighting, q: PolicyState, b: nat,
                          h: seq<Event>) {
    && n <= x.reading < b && x.told <= |h|
    && After(cfg, p, h[..x.told]).DeadlineExceeded(w.clock(x.reading))
    && (Quiet(w, x.reading + 1, b) ==> q.DeadlineExceeded(w.clock(x.reading)))
  }

  // ---- A serial batch --------------------------------------------------------------------------

  /** The rest of the batch is cut off at `x` and nothing before it is. */
  ghost predicate CutAt(ms: seq<Row>, fates: seq<Fate>, x: Sighting) {
    && |fates| == |ms| && 0 < |x.left| <= |ms| && x.left == ms[|ms| - |x.left|..]
    && forall i :: 0 <= i < |ms| ==> (fates[i] == Aborted <==> i >= |ms| - |x.left|)
  }

  ghost predicate SerialSighted(cfg: Config, w: World, ms: seq<Row>, p: PolicyState, n: nat, t: Tally) {
    if t.seen.None? then Aborted !in t.fates
    else Sighted(cfg, w, p, n, t.seen.value, t.policy, t.readings, t.events) && CutAt(ms, t.fates, t.seen.value)
  }

  /** Where the loop goes on after `ms[0]`: `next` is the policy and the readings by then. */
  ghost predicate GoesOn(cfg: Config, w: World, m: Row, p: PolicyState, n: nat, f: Fate, p': PolicyState, n': nat) {
    var q := Hear(cfg, w, p, n);
    && !q.DeadlineExceeded(w.clock(n))
    && if m.retries >= cfg.maxRetries then f == PreExceeded && p' == q && n' == n + 1
       else
         && !PublishTrips(cfg, w, m, q, n + 1)
         && f == PublishFate(cfg, w, m)
         && p' == PublishPolicy(cfg, w, m, q, n + 1) && n' == PublishReadings(w, m, n + 1)
  }

  /** What the policy is told about one message. */
  function Told1(cfg: Config, w: World, m: Row, n: nat): seq<Event> {
    var heard := SignalEvents(w.signals(n));
    if m.retries >= cfg.maxRetries || w.attempt(m.id).Refused? then heard
    else if w.attempt(m.id).Accepted? then heard + [Sent]
    else heard + SignalEvents(w.signals(n + 1)) + [Event.Outage(w.clock(n + 1))]
  }

  lemma {:induction false} FatesGoOn(cfg: Config, w: World, ms: seq<Row>, p: PolicyState, n: nat, f: Fate,
                                     p': PolicyState, n': nat)
    requires ms != [] && GoesOn(cfg, w, ms[0], p, n, f, p', n')
    ensures var t, u := Fates(cfg, w, ms, p, n), Fates(cfg, w, ms[1..], p', n');
            t == u.After1(f, Told1(cfg, w, ms[0], n))
  {
  }

  lemma ToldIsPolicy(cfg: Config, w: World, m: Row, p: PolicyState, n: nat, f: Fate, p': PolicyState, n': nat)
    requires GoesOn(cfg, w, m, p, n, f, p', n')
    ensures p' == After(cfg, p, Told1(cfg, w, m, n)) && n < n' && f != Aborted
  {
    var heard, more := SignalEvents(w.signals(n)), SignalEvents(w.signals(n + 1));
    var q := Hear(cfg, w, p, n);
    HearIsHistory(cfg, p, w.signals(n));
    if m.retries < cfg.maxRetries && w.attempt(m.id).Accepted? {
      AfterOne(cfg, p, heard, Sent);
    } else if m.retries < cfg.maxRetries && w.attempt(m.id).BrokerDown? {
      HearIsHistory(cfg, q, w.signals(n + 1));
      AfterConcat(cfg, p, heard, more);
      AfterOne(cfg, p, heard + more, Event.Outage(w.clock(n + 1)));
    }
  }

  /** What the rest of the batch sighted, the whole batch did. */
  lemma SightedThen(cfg: Config, w: World, ms: seq<Row>, p: PolicyState, n: nat, f: Fate, told: seq<Event>, n': nat,
                    u: Tally)
    requires ms != [] && f != Aborted && n <= n'
    requires SerialSighted(cfg, w, ms[1..], After(cfg, p, told), n', u)
    ensures SerialSighted(cfg, w, ms, p, n, u.After1(f, told))
  {
    var t := u.After1(f, told);
    if u.seen.Some? {
      var x, y := u.seen.value, t.seen.value;
      assert t.events[..y.told] == told + u.events[..x.told];
      AfterConcat(cfg, p, told, u.events[..x.told]);
      assert ms[1..][|ms| - 1 - |x.left|..] == ms[|ms| - |x.left|..];
      forall i | 0 <= i < |ms| ensures t.fates[i] == Aborted <==> i >= |ms| - |y.left| {
        if i > 0 { assert t.fates[i] == u.fates[i - 1]; }
      }
    } else {
      InTail(f, u.fates);
    }
  }

  lemma InTail(f: Fate, fates: seq<Fate>)
    requires f != Aborted
    ensures Aborted in [f] + fates <==> Aborted in fates
  {
  }

  lemma {:induction false} SightedAtOnce(cfg: Config, w: World, ms: seq<Row>, p: PolicyState, n: nat)
    requires ms != [] && Hear(cfg, w, p, n).DeadlineExceeded(w.clock(n))
    ensures SerialSighted(cfg, w, ms, p, n, Fates(cfg, w, ms, p, n))
  {
    var heard := SignalEvents(w.signals(n));
    HearIsHistory(cfg, p, w.signals(n));
    assert heard[..|heard|] == heard && ms[0..] == ms;
  }

  lemma {:induction false} TripSightsNothing(cfg: Config, w: World, ms: seq<Row>, p: PolicyState, n: nat)
    requires ms != [] && ms[0].retries < cfg.maxRetries
    requires var q := Hear(cfg, w, p, n); !q.DeadlineExceeded(w.clock(n)) && PublishTrips(cfg, w, ms[0], q, n + 1)
    ensures SerialSighted(cfg, w, ms, p, n, Fates(cfg, w, ms, p, n))
  {
    var fates := BreakerFates(cfg, ms[1..]);
    assert Aborted !in fates;
    InTail(Deferred, fates);
  }

  /** A serial batch is cut off exactly by a check that finds the deadline passed, and from
      that check on nothing is sent. */
  lemma {:induction false} SerialBatchSighted(cfg: Config, w: World, ms: seq<Row>, p: PolicyState, n: nat)
    ensures SerialSighted(cfg, w, ms, p, n, Fates(cfg, w, ms, p, n))
    decreases |ms|
  {
    if ms != [] {
      var m, q := ms[0], Hear(cfg, w, p, n);
      if q.DeadlineExceeded(w.clock(n)) {
        SightedAtOnce(cfg, w, ms, p, n);
      } else if m.retries < cfg.maxRetries && PublishTrips(cfg, w, m, q, n + 1) {
        TripSightsNothing(cfg, w, ms, p, n);
      } else {
        var tried := m.retries < cfg.maxRetries;
        var f := if tried then PublishFate(cfg, w, m) else PreExceeded;
        var p' := if tried then PublishPolicy(cfg, w, m, q, n + 1) else q;
        var n' := if tried then PublishReadings(w, m, n + 1) else n + 1;
        ToldIsPolicy(cfg, w, m, p, n, f, p', n');
        SerialBatchSighted(cfg, w, ms[1..], p', n');
        FatesGoOn(cfg, w, ms, p, n, f, p', n');
        SightedThen(cfg, w, ms, p, n, f, Told1(cfg, w, m, n), n', Fates(cfg, w, ms[1..], p', n'));
      }
    }
  }

  // ---- A parallel batch ------------------------------------------------------------------------

  /** The window is stopped for a shutdown exactly by such a check, and nothing is taken from
      `remaining` after it. */
  ghost predicate WindowSighted(cfg: Config, w: World, p: PolicyState, n: nat, s: Window) {
    && Told(cfg, p, s) && n <= s.readings && Aborted !in s.fates
    && (s.stop == ByShutdown <==> s.seen.Some?)
    && (s.seen.Some? ==>
          Sighted(cfg, w, p, n, s.seen.value, s.policy, s.readings, s.events) && s.remaining == s.seen.value.left)
  }

  lemma SightedLater(cfg: Config, w: World, p: PolicyState, n: nat, x: Sighting, q: PolicyState, b: nat, h: seq<Event>,
                     q': PolicyState, b': nat, h': seq<Event>)
    requires Sighted(cfg, w, p, n, x, q, b, h)
    requires b' >= b && h <= h' && (Quiet(w, b, b') ==> q'.shutdownDeadline == q.shutdownDeadline)
    ensures Sighted(cfg, w, p, n, x, q', b', h')
  {
    assert h'[..x.told] == h[..x.told];
    if Quiet(w, x.reading + 1, b') {
      assert Quiet(w, x.reading + 1, b) && Quiet(w, b, b');
    }
  }

  lemma CutOffSighted(cfg: Config, w: World, p: PolicyState, n: nat, s: Window)
    requires WindowSighted(cfg, w, p, n, s) && s.stop == Running
    requires s.Read(cfg, w).policy.DeadlineExceeded(w.clock(s.readings))
    ensures WindowSighted(cfg, w, p, n, s.Read(cfg, w).CutOff())
  {
    ReadTold(cfg, w, p, s);
    var t := s.Read(cfg, w);
    assert t.events[..|t.events|] == t.events;
  }

  lemma CompleteKeepsDeadline(cfg: Config, w: World, s: Window, m: Row)
    ensures var r := Complete(cfg, w, s, m);
            && r.readings >= s.readings && s.events <= r.events
            && (Quiet(w, s.readings, r.readings) ==> r.policy.shutdownDeadline == s.policy.shutdownDeadline)
            && r.seen == s.seen && r.stop == s.stop && r.remaining == s.remaining
  {
    if w.attempt(m.id).BrokerDown? && w.signals(s.readings) == [] {
      assert Hear(cfg, w, s.policy, s.readings) == s.policy;
    }
    assert Quiet(w, s.readings, s.readings + 1) ==> w.signals(s.readings) == [];
  }

  lemma CompleteSighted(cfg: Config, w: World, p: PolicyState, n: nat, s: Window, m: Row)
    requires WindowSighted(cfg, w, p, n, s)
    ensures WindowSighted(cfg, w, p, n, Complete(cfg, w, s, m))
  {
    CompleteTold(cfg, w, p, s, m);
    var r := Complete(cfg, w, s, m);
    if s.seen.Some? {
      CompleteKeepsDeadline(cfg, w, s, m);
      SightedLater(cfg, w, p, n, s.seen.value, s.policy, s.readings, s.events, r.policy, r.readings, r.events);
    }
  }

  lemma ConsumeSighted(cfg: Config, w: World, p: PolicyState, n: nat, s: Window, i: nat)
    requires WindowSighted(cfg, w, p, n, s) && i < |s.pending|
    ensures WindowSighted(cfg, w, p, n, Consume(cfg, w, s, i))
  {
    CompleteSighted(cfg, w, p, n, Landed(s, i), s.pending[i]);
  }

  lemma FillOneSighted(cfg: Config, w: World, p: PolicyState, n: nat, s: Window)
    requires WindowSighted(cfg, w, p, n, s) && MayFill(cfg, s)
    ensures WindowSighted(cfg, w, p, n, FillOne(cfg, w, s))
  {
    var t := s.Read(cfg, w);
    ReadTold(cfg, w, p, s);
    if t.policy.DeadlineExceeded(w.clock(s.readings)) {
      CutOffSighted(cfg, w, p, n, s);
    } else {
      var m, u := t.remaining[0], t.(remaining := t.remaining[1..]);
      FailTold(cfg, w, p, u, m, w.attempt(m.id));
    }
  }

  lemma {:induction false} FillSighted(cfg: Config, w: World, p: PolicyState, n: nat, s: Window)
    requires WindowSighted(cfg, w, p, n, s)
    ensures WindowSighted(cfg, w, p, n, Fill(cfg, w, s))
    decreases |s.remaining|, s.stop == Running
  {
    if MayFill(cfg, s) {
      FillOneSighted(cfg, w, p, n, s);
      FillSighted(cfg, w, p, n, FillOne(cfg, w, s));
    }
  }

  lemma {:induction false} DrainRestSighted(cfg: Config, w: World, p: PolicyState, n: nat, s: Window, drain: nat,
                                            i: nat)
    requires WindowSighted(cfg, w, p, n, s) && i <= |s.pending|
    ensures WindowSighted(cfg, w, p, n, DrainRest(cfg, w, s, drain, i))
    decreases |s.pending| - i
  {
    if i == |s.pending| {
    } else if w.done(drain, s.pending[i].id) {
      ConsumeSighted(cfg, w, p, n, s, i);
      DrainRestSighted(cfg, w, p, n, Consume(cfg, w, s, i), drain, i);
    } else {
      DrainRestSighted(cfg, w, p, n, s, drain, i + 1);
    }
  }

  lemma DrainSighted(cfg: Config, w: World, p: PolicyState, n: nat, t: Window)
    requires WindowSighted(cfg, w, p, n, t) && t.pending != []
    ensures WindowSighted(cfg, w, p, n, Drain(cfg, w, t))
  {
    var t0 := t.(wait := false, drains := t.drains + 1);
    var i := w.first(t.drains) % |t.pending|;
    ConsumeSighted(cfg, w, p, n, t0, i);
    DrainRestSighted(cfg, w, p, n, Consume(cfg, w, t0, i), t.drains, 0);
  }

  lemma RefillSighted(cfg: Config, w: World, p: PolicyState, n: nat, s: Window)
    requires WindowSighted(cfg, w, p, n, s)
    ensures WindowSighted(cfg, w, p, n, Refill(cfg, w, s))
  {
    var c := CheckDeadline(cfg, w, s);
    ReadTold(cfg, w, p, s);
    if s.stop == Running && c.stop == ByShutdown { CutOffSighted(cfg, w, p, n, s); }
    FillSighted(cfg, w, p, n, c);
  }

  lemma {:induction false} LoopSighted(cfg: Config, w: World, p: PolicyState, n: nat, s: Window)
    requires WindowSighted(cfg, w, p, n, s)
    ensures WindowSighted(cfg, w, p, n, Loop(cfg, w, s))
    decreases s.Measure()
  {
    if s.pending != [] || s.remaining != [] {
      RefillSighted(cfg, w, p, n, s);
      var t := Refill(cfg, w, s);
      if t.pending != [] {
        DrainSighted(cfg, w, p, n, t);
        LoopSighted(cfg, w, p, n, Drain(cfg, w, t));
      }
    }
  }

  /** A parallel batch is stopped for a shutdown exactly by a check that finds the deadline
      passed, be anything left over or not, and what is left over then is what is cut off. */
  lemma ParallelBatchSighted(cfg: Config, w: World, ms: seq<Row>, p: PolicyState, n: nat)
    requires cfg.Valid()
    ensures var r := Run(cfg, w, ms, p, n);
            && r.Valid()
            && (r.stop == ByShutdown <==> r.seen.Some?)
            && (r.seen.None? ==> Listing(r.settled, r.fates).aborted == [])
            && (r.seen.Some? ==>
                  var x := r.seen.value;
                  && Sighted(cfg, w, p, n, x, r.policy, r.readings, r.events)
                  && Listing(r.settled, r.fates).aborted == x.left && IsSuffix(x.left, ms))
  {
    var s := Loop(cfg, w, Begin(ms, p, n));
    LoopSighted(cfg, w, p, n, Begin(ms, p, n));
    BeginSound(cfg, w, ms, p, n);
    LoopSound(cfg, w, ms, Begin(ms, p, n));
    FinishCutsOff(cfg, s);
  }

  lemma FinishCutsOff(cfg: Config, s: Window)
    requires s.Valid() && Aborted !in s.fates
    ensures var r := Finish(cfg, s);
            && r.Valid() && r.policy == s.policy && r.readings == s.readings && r.events == s.events
            && r.stop == s.stop && r.seen == s.seen
            && Listing(r.settled, r.fates).aborted == if s.stop == ByShutdown then s.remaining else []
  {
    var r := Finish(cfg, s);
    if s.stop == ByShutdown {
      var fates := seq(|s.remaining|, _ => Aborted);
      NoneAborted(s.settled, s.fates);
      AllAborted(s.remaining, fates);
      ListingConcat(s.settled, s.fates, s.remaining, fates);
    } else {
      NoneAborted(r.settled, r.fates);
    }
  }

  // ---- Either batch ------------------------------------------------------------------------------

  /** Whichever loop ran: messages are cut off only by a deadline check that found the deadline
      passed; those not taken by then, the end of the batch, are all cut off; none of them is
      ever attempted. */
  lemma CutOffSawDeadline(cfg: Config, w: World, ms: seq<Row>, p: PolicyState, n: nat)
    requires cfg.Valid() && UniqueIds(ms)
    ensures var o := BatchOutcome(cfg, w, ms, p, n);
            && (o.lists.aborted != [] ==> o.seen.Some?)
            && (o.seen.Some? ==>
                  var x := o.seen.value;
                  && Sighted(cfg, w, p, n, x, o.policy, o.readings, o.events)
                  && DeadlinePassed(cfg, p, o.events[..x.told], w.clock(x.reading))
                  && o.lists.aborted == x.left && IsSuffix(x.left, ms)
                  && forall m :: m in x.left ==> m.id !in o.attempts)
  {
    var o := BatchOutcome(cfg, w, ms, p, n);
    if cfg.publishConcurrency == 1 {
      SerialBatchSighted(cfg, w, ms, p, n);
      SerialCut(ms, Fates(cfg, w, ms, p, n));
    } else {
      ParallelBatchSighted(cfg, w, ms, p, n);
    }
    if o.seen.Some? {
      DeadlineIsLastSignal(cfg, p, o.events[..o.seen.value.told], w.clock(o.seen.value.reading));
    }
    OutcomeIsLawful(cfg, w, ms, p, n);
    forall m | m in o.lists.aborted && m in ms ensures m.id !in o.attempts {
      AbortedUntried(cfg, ms, o.attempts, o.lists, m);
    }
  }

  lemma SerialCut(ms: seq<Row>, t: Tally)
    requires |t.fates| == |ms|
    requires if t.seen.None? then Aborted !in t.fates else CutAt(ms, t.fates, t.seen.value)
    ensures Listing(ms, t.fates).aborted == if t.seen.None? then [] else t.seen.value.left
  {
    if t.seen.None? {
      NoneAborted(ms, t.fates);
    } else {
      var k := |ms| - |t.seen.value.left|;
      NoneAborted(ms[..k], t.fates[..k]);
      AllAborted(ms[k..], t.fates[k..]);
      ListingConcat(ms[..k], t.fates[..k], ms[k..], t.fates[k..]);
      assert ms == ms[..k] + ms[k..] && t.fates == t.fates[..k] + t.fates[k..];
    }
  }

  lemma AbortedUntried(cfg: Config, ms: seq<Row>, attempts: map<nat, Attempt>, l: Lists, m: Row)
    requires Lawful(cfg, ms, attempts, l) && UniqueIds(ms) && m in ms && m in l.aborted
    ensures m.id !in attempts
  {
    var i :| 0 <= i < |l.aborted| && l.aborted[i] == m;
    assert Ids(l.aborted)[i] == m.id;
    OneList(cfg, ms, attempts, l, m.id);
    Listed(l, m);
    assert Justified(cfg, attempts, l, m);
  }

  // ---- The life ----------------------------------------------------------------------------------

  /** No signal is handled and no clock runs backwards between the reading `j` of this turn
      and the guard that follows it. */
  ghost predicate NothingMovesTheDeadline(e: Turn, next: Turn, j: nat, n: nat) {
    && Quiet(e.world, j + 1, n) && next.world.signals(n) == []
    && e.world.clock(j) <= next.world.clock(n)
  }

  lemma GuardStops(cfg: Config, e: Turn, next: Turn, j: nat, s: Life)
    requires s.policy.DeadlineExceeded(e.world.clock(j))
    requires next.world.signals(s.readings) == [] && e.world.clock(j) <= next.world.clock(s.readings)
    ensures !Guarded(cfg, next, s).1
  {
    assert HearAll(cfg, s.policy, []) == s.policy;
  }

  /** The turn `e` that starts from `s` worked on a batch that a deadline check stopped. */
  ghost predicate StoppedTurn(cfg: Config, e: Turn, s: Life)
    requires cfg.Valid()
  {
    && Guarded(cfg, e, s).1
    && var here := Guarded(cfg, e, s).0;
       && here.tables.Valid()
       && |Processed(cfg, e, here).batches| > |here.batches|
       && LastBatch(Processed(cfg, e, here)).seen.Some?
  }

  ghost function LastBatch(s: Life): Outcome
    requires s.batches != []
  {
    s.batches[|s.batches| - 1]
  }

  /** What the turn's last check says about the batch and about the policy. */
  ghost predicate StopsFor(cfg: Config, e: Turn, here: Life, done: Life, o: Outcome, x: Sighting)
    requires |o.events| <= |done.events|
  {
    && here.readings < x.reading < done.readings
    && x.told <= |o.events|
    && DeadlinePassed(cfg, FRESH, done.events[..|done.events| - |o.events| + x.told], e.world.clock(x.reading))
    && o.lists.aborted == x.left
    && (forall m :: m in x.left ==> m.id !in o.attempts)
    && (Quiet(e.world, x.reading + 1, done.readings) ==> done.policy.DeadlineExceeded(e.world.clock(x.reading)))
  }

  lemma {:induction false} TurnStops(cfg: Config, e: Turn, here: Life)
    requires cfg.Valid() && Remembers(cfg, here) && here.tables.Valid()
    requires |Processed(cfg, e, here).batches| > |here.batches| && LastBatch(Processed(cfg, e, here)).seen.Some?
    ensures var done := Processed(cfg, e, here); var o := LastBatch(done);
            |o.events| <= |done.events| && StopsFor(cfg, e, here, done, o, o.seen.value)
  {
    var gated, batch, o := Gated(cfg, e, here), BatchOf(cfg, e, here), TurnOutcome(cfg, e, here);
    GatedRemembers(cfg, e, here);
    WorkedParts(cfg, e, here);
    UniqueBatch(cfg, e, here);
    CutOffSawDeadline(cfg, e.world, batch, gated.policy, gated.readings);
    StopsParts(cfg, e, here, Processed(cfg, e, here), gated, o);
  }

  lemma {:induction false} UniqueBatch(cfg: Config, e: Turn, here: Life)
    requires here.tables.Valid()
    ensures UniqueIds(BatchOf(cfg, e, here))
  {
    Selector.SelectedAreTheOldestFree(here.tables, e.locked, cfg.staleTimeout, e.claimAt, cfg.batchSize);
  }

  lemma {:induction false} StopsParts(cfg: Config, e: Turn, here: Life, done: Life, gated: Life, o: Outcome)
    requires Remembers(cfg, gated) && gated.readings == here.readings + 1 && o.seen.Some?
    requires done.events == gated.events + o.events && done.policy == o.policy && done.readings == o.readings
    requires Sighted(cfg, e.world, gated.policy, gated.readings, o.seen.value, o.policy, o.readings, o.events)
    requires o.lists.aborted == o.seen.value.left && forall m :: m in o.seen.value.left ==> m.id !in o.attempts
    ensures |o.events| <= |done.events| && StopsFor(cfg, e, here, done, o, o.seen.value)
  {
    var x := o.seen.value;
    ToldSoFar(cfg, gated.events, gated.policy, o.events, x.told);
    DeadlineIsLastSignal(cfg, FRESH, (gated.events + o.events)[..|gated.events| + x.told], e.world.clock(x.reading));
  }

  /** What a turn that worked on a batch adds to the life. */
  lemma {:induction false} WorkedParts(cfg: Config, e: Turn, here: Life)
    requires cfg.Valid() && |Processed(cfg, e, here).batches| > |here.batches|
    ensures var done, gated, o := Processed(cfg, e, here), Gated(cfg, e, here), TurnOutcome(cfg, e, here);
            && LastBatch(done) == o
            && done.events == gated.events + o.events && done.policy == o.policy && done.readings == o.readings
            && gated.readings == here.readings + 1
  {
  }

  lemma ToldSoFar(cfg: Config, before: seq<Event>, p: PolicyState, h: seq<Event>, k: nat)
    requires k <= |h| && p == After(cfg, FRESH, before)
    ensures After(cfg, FRESH, (before + h)[..|before| + k]) == After(cfg, p, h[..k])
  {
    assert (before + h)[..|before| + k] == before + h[..k];
    AfterConcat(cfg, FRESH, before, h[..k]);
  }

  /** When a deadline check stops a batch, the history by then had the deadline passed at that
      check's own reading; everything not taken by then is cut off unattempted; and with no
      signal after that very reading the main loop stops: no batch is worked on again. */
  lemma {:induction false} CutOffEndsTheLife(cfg: Config, e: Turn, next: Turn, rest: seq<Turn>, s: Life)
    requires cfg.Valid() && Remembers(cfg, s) && StoppedTurn(cfg, e, s)
    ensures var here := Guarded(cfg, e, s).0;
            var done := Processed(cfg, e, here);
            var o := LastBatch(done);
            var x := o.seen.value;
            && |o.events| <= |done.events|
            && StopsFor(cfg, e, here, done, o, x)
            && (NothingMovesTheDeadline(e, next, x.reading, done.readings) ==>
                  Lived(cfg, [e, next] + rest, s).batches == done.batches)
  {
    var here := Guarded(cfg, e, s).0;
    var done := Processed(cfg, e, here);
    ReadRemembers(cfg, e.world, s.(tables := here.tables));
    TurnStops(cfg, e, here);
    if NothingMovesTheDeadline(e, next, LastBatch(done).seen.value.reading, done.readings) {
      GuardStops(cfg, e, next, LastBatch(done).seen.value.reading, done);
      TwoTurns(cfg, e, next, rest, s);
    }
  }

  lemma {:induction false} TwoTurns(cfg: Config, e: Turn, next: Turn, rest: seq<Turn>, s: Life)
    requires cfg.Valid() && Guarded(cfg, e, s).1
    requires !Guarded(cfg, next, Processed(cfg, e, Guarded(cfg, e, s).0)).1
    ensures Lived(cfg, [e, next] + rest, s).batches == Processed(cfg, e, Guarded(cfg, e, s).0).batches
  {
    assert [e, next] + rest == [e] + ([next] + rest);
    FirstTurn(cfg, e, [next] + rest, s);
    FirstTurn(cfg, next, rest, Processed(cfg, e, Guarded(cfg, e, s).0));
  }
}
