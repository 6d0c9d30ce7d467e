/** When the parallel loop leaves messages out of all its result lists, and when it cannot. */
module ParallelTail {
  import opened Types
  import opened Policy
  import opened Engine
  import opened Serial
  import opened Parallel

  // ---- What it takes -------------------------------------------------------------------------

  lemma {:induction false} DrainPointsSound(cfg: Config, w: World, ms: seq<Row>, s: Window, x: Window)
    requires cfg.Valid() && Sound(cfg, w, ms, s) && DrainsFrom(cfg, w, s, x)
    ensures Sound(cfg, w, ms, x) && x.pending != []
    decreases s.Measure()
  {
    var t := Refill(cfg, w, s);
    RefillSound(cfg, w, ms, s);
    if x != t {
      DrainSound(cfg, w, ms, t);
      DrainPointsSound(cfg, w, ms, Drain(cfg, w, t), x);
    }
  }

  /** How many of the rows may still be sent. */
  function Sendables(cfg: Config, rows: seq<Row>): nat {
    if rows == [] then 0
    else Sendables(cfg, rows[..|rows| - 1]) + if rows[|rows| - 1].retries < cfg.maxRetries then 1 else 0
  }

  lemma {:induction false} SendablesGrow(cfg: Config, rows: seq<Row>, n: nat)
    requires n <= |rows|
    ensures Sendables(cfg, rows[..n]) <= Sendables(cfg, rows)
    decreases |rows|
  {
    if n < |rows| {
      assert rows[..|rows| - 1][..n] == rows[..n];
      SendablesGrow(cfg, rows[..|rows| - 1], n);
    } else {
      assert rows[..n] == rows;
    }
  }

  /** The messages of the batch taken so far. */
  function Taken(ms: seq<Row>, s: Window): seq<Row>
    requires |s.remaining| <= |ms|
  {
    ms[..|ms| - |s.remaining|]
  }

  /** How many rows with retries left must come before the last row of a batch for its end to
      be lost. A relay whose last attempt met an outage needs a success first, and in a window
      of two that success must come by itself. */
  function Needed(cfg: Config, p: PolicyState): nat {
    if p.outageStreak >= 1 && cfg.publishConcurrency == 2 then 3 else cfg.publishConcurrency
  }

  /** The batch's end can be lost. */
  predicate MayStrand(cfg: Config, ms: seq<Row>, p: PolicyState) {
    cfg.publishConcurrency >= 2 && ms != [] && Sendables(cfg, ms[..|ms| - 1]) >= Needed(cfg, p)
  }

  /** What the window has taken covers what is in flight and a success, if there was one; until
      there is one, a streak that was running still runs; and the window waits with messages
      left only when it has taken enough. */
  ghost predicate Covered(cfg: Config, ms: seq<Row>, p: PolicyState, s: Window) {
    && IsSuffix(s.remaining, ms)
    && |s.pending| + (if Sent in s.events then 1 else 0) <= Sendables(cfg, Taken(ms, s))
    && (s.stop == Running && Sent !in s.events && p.outageStreak >= 1 ==> s.policy.outageStreak >= 1)
  }

  ghost predicate WaitsEarned(cfg: Config, ms: seq<Row>, p: PolicyState, s: Window) {
    Covered(cfg, ms, p, s)
    && (s.wait && s.stop == Running && s.remaining != [] ==>
          cfg.publishConcurrency >= 2 && Sendables(cfg, Taken(ms, s)) >= Needed(cfg, p))
  }

  lemma SignalsAreNotSent(h: seq<Event>, at: seq<real>)
    ensures Sent in h + SignalEvents(at) <==> Sent in h
  {
    assert forall i :: 0 <= i < |at| ==> SignalEvents(at)[i] != Sent;
  }

  lemma SentThen(h: seq<Event>, e: Event)
    ensures Sent in h + [e] <==> Sent in h || e == Sent
  {
  }

  lemma ReadCovered(cfg: Config, w: World, ms: seq<Row>, p: PolicyState, s: Window)
    requires Covered(cfg, ms, p, s)
    ensures Covered(cfg, ms, p, s.Read(cfg, w))
  {
    HearKeepsBreaker(cfg, s.policy, w.signals(s.readings));
    SignalsAreNotSent(s.events, w.signals(s.readings));
  }

  /** A failure settles a message and changes neither side. */
  lemma FailCovered(cfg: Config, w: World, ms: seq<Row>, p: PolicyState, s: Window, m: Row, a: Attempt)
    requires Covered(cfg, ms, p, s)
    ensures Covered(cfg, ms, p, s.Fail(cfg, w, m, a))
    ensures Sent in s.Fail(cfg, w, m, a).events <==> Sent in s.events
  {
    ReadCovered(cfg, w, ms, p, s);
    SignalsAreNotSent(s.events, w.signals(s.readings));
    SentThen(s.Read(cfg, w).events, Event.Outage(w.clock(s.readings)));
  }

  /** The next message is taken out of `remaining`. */
  lemma TakenNext(cfg: Config, ms: seq<Row>, p: PolicyState, s: Window)
    requires Covered(cfg, ms, p, s) && s.remaining != []
    ensures var u := s.(remaining := s.remaining[1..]);
            && Covered(cfg, ms, p, u)
            && Sendables(cfg, Taken(ms, u))
               == Sendables(cfg, Taken(ms, s)) + if s.remaining[0].retries < cfg.maxRetries then 1 else 0
  {
    var u := s.(remaining := s.remaining[1..]);
    var n := |ms| - |s.remaining|;
    assert ms[n] == s.remaining[0] && ms[..n + 1][..n] == ms[..n] && ms[..n + 1][n] == ms[n];
    assert Taken(ms, u) == ms[..n + 1];
  }

  lemma FillOneCovered(cfg: Config, w: World, ms: seq<Row>, p: PolicyState, s: Window)
    requires Covered(cfg, ms, p, s) && MayFill(cfg, s)
    ensures Covered(cfg, ms, p, FillOne(cfg, w, s))
  {
    ReadCovered(cfg, w, ms, p, s);
    var t := s.Read(cfg, w);
    if !t.policy.DeadlineExceeded(w.clock(s.readings)) { TakeOneCovered(cfg, w, ms, p, t); }
  }

  lemma TakeOneCovered(cfg: Config, w: World, ms: seq<Row>, p: PolicyState, s: Window)
    requires Covered(cfg, ms, p, s) && s.remaining != []
    ensures Covered(cfg, ms, p, TakeOne(cfg, w, s))
  {
    TakenNext(cfg, ms, p, s);
    var m, u := s.remaining[0], s.(remaining := s.remaining[1..]);
    if m.retries >= cfg.maxRetries {
      SameCovered(cfg, ms, p, u, u.Settle(m, PreExceeded));
    } else if FailsEarly(w.attempt(m.id)) {
      FailCovered(cfg, w, ms, p, u, m, w.attempt(m.id));
      StoppedCovered(cfg, ms, p, u.Fail(cfg, w, m, w.attempt(m.id)));
    }
  }

  lemma SameCovered(cfg: Config, ms: seq<Row>, p: PolicyState, s: Window, r: Window)
    requires Covered(cfg, ms, p, s)
    requires r.remaining == s.remaining && r.pending == s.pending && r.events == s.events
    requires r.policy == s.policy && r.stop == s.stop
    ensures Covered(cfg, ms, p, r)
  {
  }

  lemma StoppedCovered(cfg: Config, ms: seq<Row>, p: PolicyState, s: Window)
    requires Covered(cfg, ms, p, s)
    ensures Covered(cfg, ms, p, s.(stop := ByBreaker, breakerExc := true))
  {
  }

  lemma {:induction false} FillCovered(cfg: Config, w: World, ms: seq<Row>, p: PolicyState, s: Window)
    requires Covered(cfg, ms, p, s)
    ensures Covered(cfg, ms, p, Fill(cfg, w, s))
    decreases |s.remaining|, s.stop == Running
  {
    if MayFill(cfg, s) {
      FillOneCovered(cfg, w, ms, p, s);
      FillCovered(cfg, w, ms, p, FillOne(cfg, w, s));
    }
  }

  lemma ConsumeCovered(cfg: Config, w: World, ms: seq<Row>, p: PolicyState, s: Window, i: nat)
    requires Covered(cfg, ms, p, s) && i < |s.pending|
    ensures Covered(cfg, ms, p, Consume(cfg, w, s, i))
  {
    var m, t := s.pending[i], Landed(s, i);
    assert Covered(cfg, ms, p, t);
    FailCovered(cfg, w, ms, p, t, m, w.attempt(m.id));
    SentThen(t.events, Sent);
  }

  lemma {:induction false} DrainRestCovered(cfg: Config, w: World, ms: seq<Row>, p: PolicyState, s: Window, drain: nat,
                                            i: nat)
    requires Covered(cfg, ms, p, s) && i <= |s.pending|
    ensures Covered(cfg, ms, p, DrainRest(cfg, w, s, drain, i))
    decreases |s.pending| - i
  {
    if i == |s.pending| {
    } else if w.done(drain, s.pending[i].id) {
      ConsumeCovered(cfg, w, ms, p, s, i);
      DrainRestCovered(cfg, w, ms, p, Consume(cfg, w, s, i), drain, i);
    } else {
      DrainRestCovered(cfg, w, ms, p, s, drain, i + 1);
    }
  }

  lemma DrainCovered(cfg: Config, w: World, ms: seq<Row>, p: PolicyState, t: Window)
    requires Covered(cfg, ms, p, t) && t.pending != []
    ensures Covered(cfg, ms, p, Drain(cfg, w, t))
  {
    var t0 := t.(wait := false, drains := t.drains + 1);
    var i := w.first(t.drains) % |t.pending|;
    assert Covered(cfg, ms, p, t0);
    ConsumeCovered(cfg, w, ms, p, t0, i);
    DrainRestCovered(cfg, w, ms, p, Consume(cfg, w, t0, i), t.drains, 0);
  }

  /** Two sends in flight and a running streak: a drain that waits has stopped the loop. */
  lemma TwoNeedASuccess(cfg: Config, w: World, t: Window)
    requires 0 < |t.pending| <= 2 && t.policy.Trips() && t.stop == Running && Drain(cfg, w, t).wait
    ensures Drain(cfg, w, t).stop != Running
  {
    var t0 := t.(wait := false, drains := t.drains + 1);
    var u := Consume(cfg, w, t0, w.first(t.drains) % |t.pending|);
    if u.stop == Running {
      assert !u.wait && |u.pending| <= 1;
      LastSetsNoWait(cfg, w, u, t.drains, 0);
    } else {
      RestStops(cfg, w, u, t.drains, 0);
    }
  }

  lemma {:induction false} LastSetsNoWait(cfg: Config, w: World, s: Window, drain: nat, i: nat)
    requires i <= |s.pending| <= 1 && !s.wait
    ensures !DrainRest(cfg, w, s, drain, i).wait
    decreases |s.pending| - i
  {
    if i == |s.pending| {
    } else if w.done(drain, s.pending[i].id) {
      LastSetsNoWait(cfg, w, Consume(cfg, w, s, i), drain, i);
    } else {
      LastSetsNoWait(cfg, w, s, drain, i + 1);
    }
  }

  lemma {:induction false} RestStops(cfg: Config, w: World, s: Window, drain: nat, i: nat)
    requires i <= |s.pending| && s.stop != Running
    ensures DrainRest(cfg, w, s, drain, i).stop != Running
    decreases |s.pending| - i
  {
    if i == |s.pending| {
    } else if w.done(drain, s.pending[i].id) {
      RestStops(cfg, w, Consume(cfg, w, s, i), drain, i);
    } else {
      RestStops(cfg, w, s, drain, i + 1);
    }
  }

  lemma RefillEarned(cfg: Config, w: World, ms: seq<Row>, p: PolicyState, s: Window)
    requires WaitsEarned(cfg, ms, p, s)
    ensures WaitsEarned(cfg, ms, p, Refill(cfg, w, s))
  {
    ReadCovered(cfg, w, ms, p, s);
    var c := CheckDeadline(cfg, w, s);
    assert Covered(cfg, ms, p, c);
    FillCovered(cfg, w, ms, p, c);
    FillEnds(cfg, w, c);
  }

  /** A drain of a full window that waits has what it needs. */
  lemma DrainEarned(cfg: Config, w: World, ms: seq<Row>, p: PolicyState, t: Window)
    requires WaitsEarned(cfg, ms, p, t) && t.Valid() && t.pending != [] && |t.pending| <= cfg.publishConcurrency
    requires t.wait || !MayFill(cfg, t)
    ensures WaitsEarned(cfg, ms, p, Drain(cfg, w, t))
  {
    DrainCovered(cfg, w, ms, p, t);
    DrainStops(cfg, w, t);
    var d := Drain(cfg, w, t);
    if d.wait && d.stop == Running && d.remaining != [] {
      WaitMeansOutage(cfg, w, t);
      if !t.wait && p.outageStreak >= 1 && cfg.publishConcurrency == 2 && Sent !in t.events {
        TwoNeedASuccess(cfg, w, t);
      }
    }
  }

  lemma {:induction false} LoopEarned(cfg: Config, w: World, ms: seq<Row>, p: PolicyState, s: Window)
    requires cfg.Valid() && Sound(cfg, w, ms, s) && WaitsEarned(cfg, ms, p, s)
    ensures WaitsEarned(cfg, ms, p, Loop(cfg, w, s))
    decreases s.Measure()
  {
    if s.pending != [] || s.remaining != [] {
      var t := Refill(cfg, w, s);
      RefillSound(cfg, w, ms, s);
      RefillEarned(cfg, w, ms, p, s);
      RefillEnds(cfg, w, s);
      if t.pending != [] {
        DrainSound(cfg, w, ms, t);
        DrainEarned(cfg, w, ms, p, t);
        LoopEarned(cfg, w, ms, p, Drain(cfg, w, t));
      }
    }
  }

  /** A message is left out only from a batch with enough rows to send before its last one, by a
      window of at least two, and after an outage. */
  lemma TailNeeds(cfg: Config, w: World, ms: seq<Row>, p: PolicyState, n: nat)
    requires cfg.Valid() && Tail(Run(cfg, w, ms, p, n)) != []
    ensures MayStrand(cfg, ms, p)
    ensures exists m :: m in ms && w.attempt(m.id).BrokerDown?
  {
    var s := Begin(ms, p, n);
    BeginSound(cfg, w, ms, p, n);
    LoopSound(cfg, w, ms, s);
    LoopEnds(cfg, w, ms, s);
    assert Taken(ms, s) == [];
    LoopEarned(cfg, w, ms, p, s);
    EarnedTail(cfg, ms, p, Loop(cfg, w, s));
    TailMetOutage(cfg, w, ms, s);
  }

  lemma EarnedTail(cfg: Config, ms: seq<Row>, p: PolicyState, r: Window)
    requires WaitsEarned(cfg, ms, p, r) && r.wait && r.stop == Running && r.remaining != []
    ensures MayStrand(cfg, ms, p)
  {
    assert Taken(ms, r) == ms[..|ms| - 1][..|ms| - |r.remaining|];
    SendablesGrow(cfg, ms[..|ms| - 1], |ms| - |r.remaining|);
  }

  lemma TailMetOutage(cfg: Config, w: World, ms: seq<Row>, s: Window)
    requires cfg.Valid() && Sound(cfg, w, ms, s) && (s.wait ==> s.pending != []) && Tail(Loop(cfg, w, s)) != []
    ensures exists m :: m in ms && w.attempt(m.id).BrokerDown?
  {
    TailIff(cfg, w, ms, s);
    var x :| DrainsFrom(cfg, w, s, x) && x.pending != [] && WaitsForNothing(cfg, w, x);
    DrainPointsSound(cfg, w, ms, s, x);
    WaitMeansOutage(cfg, w, x);
    var m :| m in x.pending && w.attempt(m.id).BrokerDown?;
    assert m in multiset(x.settled) + multiset(x.pending) + multiset(x.remaining);
    assert m in multiset(ms);
  }

  // ---- And that it is enough --------------------------------------------------------------------

  /** Nobody signals and the clock stands at `now`. The send of `bad` meets an outage, the others
      succeed. From the `whole`-th drain on, all sends in flight finish together. */
  function OneBad(bad: nat, now: real, whole: nat): World {
    World(_ => now, _ => [], id => if id == bad then BrokerDown(Sending) else Accepted, _ => 0,
          (drain, _) => drain >= whole)
  }

  /** A time before the deadline, if there is one. */
  function Before(p: PolicyState): real {
    if p.shutdownDeadline.None? then 0.0 else p.shutdownDeadline.value - 1.0
  }

  /** The loop runs on and no deadline check will stop it. */
  ghost predicate RunsOn(s: Window, now: real) {
    s.stop == Running && !s.policy.DeadlineExceeded(now)
  }

  /** The first `j` rows of `rows` that may still be sent, and the rows after the last of them. */
  function First(cfg: Config, rows: seq<Row>, j: nat): seq<Row> {
    if j == 0 || rows == [] then []
    else if rows[0].retries < cfg.maxRetries then [rows[0]] + First(cfg, rows[1..], j - 1)
    else First(cfg, rows[1..], j)
  }

  function Rest(cfg: Config, rows: seq<Row>, j: nat): seq<Row> {
    if j == 0 || rows == [] then rows
    else Rest(cfg, rows[1..], if rows[0].retries < cfg.maxRetries then j - 1 else j)
  }

  lemma {:induction false} SendablesHead(cfg: Config, rows: seq<Row>)
    requires rows != []
    ensures Sendables(cfg, rows) == Sendables(cfg, rows[1..]) + if rows[0].retries < cfg.maxRetries then 1 else 0
    decreases |rows|
  {
    if |rows| > 1 {
      SendablesHead(cfg, rows[..|rows| - 1]);
      assert rows[..|rows| - 1][1..] == rows[1..][..|rows[1..]| - 1];
    } else {
      assert rows[1..] == [] && rows[..0] == [];
    }
  }

  /** One row of the search for the next rows to send. */
  lemma {:induction false} FirstStep(cfg: Config, rows: seq<Row>, j: nat)
    requires rows != [] && 0 < j <= Sendables(cfg, rows[..|rows| - 1])
    ensures var i := if rows[0].retries < cfg.maxRetries then j - 1 else j;
            && rows[1..] != []
            && Sendables(cfg, rows[1..][..|rows[1..]| - 1]) - i == Sendables(cfg, rows[..|rows| - 1]) - j
            && First(cfg, rows, j) == (if rows[0].retries < cfg.maxRetries then [rows[0]] else [])
                + First(cfg, rows[1..], i)
            && Rest(cfg, rows, j) == Rest(cfg, rows[1..], i)
  {
    var front := rows[..|rows| - 1];
    assert front != [];
    SendablesHead(cfg, front);
    assert front[0] == rows[0] && front[1..] == rows[1..][..|rows[1..]| - 1];
    assert [] + First(cfg, rows[1..], j) == First(cfg, rows[1..], j);
  }

  lemma {:induction false} FirstAndRest(cfg: Config, rows: seq<Row>, j: nat)
    requires rows != [] && j <= Sendables(cfg, rows[..|rows| - 1])
    ensures |First(cfg, rows, j)| == j && Rest(cfg, rows, j) != []
    ensures var rest := Rest(cfg, rows, j);
            Sendables(cfg, rest[..|rest| - 1]) == Sendables(cfg, rows[..|rows| - 1]) - j
    decreases |rows|
  {
    if j > 0 {
      FirstStep(cfg, rows, j);
      FirstAndRest(cfg, rows[1..], if rows[0].retries < cfg.maxRetries then j - 1 else j);
    }
  }

  lemma {:induction false} FirstMore(cfg: Config, rows: seq<Row>, j: nat, i: nat)
    requires rows != [] && j <= Sendables(cfg, rows[..|rows| - 1])
    ensures First(cfg, rows, j + i) == First(cfg, rows, j) + First(cfg, Rest(cfg, rows, j), i)
    decreases |rows|
  {
    if j > 0 {
      FirstStep(cfg, rows, j);
      FirstMore(cfg, rows[1..], if rows[0].retries < cfg.maxRetries then j - 1 else j, i);
    }
  }

  lemma {:induction false} FirstAreRows(cfg: Config, rows: seq<Row>, j: nat)
    requires UniqueIds(rows)
    ensures UniqueIds(First(cfg, rows, j))
    ensures forall m :: m in First(cfg, rows, j) ==> m in rows
    decreases |rows|
  {
    if j > 0 && rows != [] {
      FirstAreRows(cfg, rows[1..], if rows[0].retries < cfg.maxRetries then j - 1 else j);
      assert forall m :: m in rows[1..] ==> m.id != rows[0].id;
      assert rows == [rows[0]] + rows[1..];
    }
  }

  /** The window fills up with the next rows that may be sent. */
  lemma {:induction false} FillsUp(cfg: Config, bad: nat, now: real, whole: nat, s: Window)
    requires RunsOn(s, now) && |s.pending| <= cfg.publishConcurrency && s.remaining != []
    requires cfg.publishConcurrency - |s.pending| <= Sendables(cfg, s.remaining[..|s.remaining| - 1])
    ensures var j := cfg.publishConcurrency - |s.pending|;
            var r := Fill(cfg, OneBad(bad, now, whole), s);
            && RunsOn(r, now) && r.policy == s.policy && r.drains == s.drains && r.wait == s.wait
            && r.pending == s.pending + First(cfg, s.remaining, j) && |r.pending| == cfg.publishConcurrency
            && r.remaining == Rest(cfg, s.remaining, j) && r.remaining != []
    decreases |s.remaining|
  {
    var w, j := OneBad(bad, now, whole), cfg.publishConcurrency - |s.pending|;
    if j > 0 {
      var t := FillTakes(cfg, bad, now, whole, s);
      FirstStep(cfg, s.remaining, j);
      FillsUp(cfg, bad, now, whole, t);
      Associates(s.pending, if s.remaining[0].retries < cfg.maxRetries then [s.remaining[0]] else [],
                 First(cfg, t.remaining, cfg.publishConcurrency - |t.pending|));
    } else {
      AlreadyFull(cfg, w, s);
    }
  }

  lemma Associates<T>(a: seq<T>, b: seq<T>, c: seq<T>)
    ensures (a + b) + c == a + (b + c)
  {
  }

  lemma {:induction false} AlreadyFull(cfg: Config, w: World, s: Window)
    requires |s.pending| == cfg.publishConcurrency
    ensures Fill(cfg, w, s) == s && s.pending + First(cfg, s.remaining, 0) == s.pending
            && Rest(cfg, s.remaining, 0) == s.remaining
  {
  }

  lemma {:induction false} FillTakes(cfg: Config, bad: nat, now: real, whole: nat, s: Window) returns (t: Window)
    requires RunsOn(s, now) && |s.pending| < cfg.publishConcurrency && s.remaining != []
    ensures var w := OneBad(bad, now, whole); Fill(cfg, w, s) == Fill(cfg, w, t)
    ensures RunsOn(t, now) && t.policy == s.policy && t.drains == s.drains && t.wait == s.wait
    ensures t.remaining == s.remaining[1..]
    ensures t.pending == s.pending + if s.remaining[0].retries < cfg.maxRetries then [s.remaining[0]] else []
  {
    var w := OneBad(bad, now, whole);
    assert Hear(cfg, w, s.policy, s.readings) == s.policy;
    t := FillOne(cfg, w, s);
  }

  lemma {:induction false} RestSucceeds(cfg: Config, bad: nat, now: real, whole: nat, s: Window, drain: nat)
    requires RunsOn(s, now) && drain >= whole && forall i :: 0 <= i < |s.pending| ==> s.pending[i].id != bad
    ensures var r := DrainRest(cfg, OneBad(bad, now, whole), s, drain, 0);
            r.pending == [] && RunsOn(r, now) && r.wait == s.wait && r.remaining == s.remaining
    decreases |s.pending|
  {
    if s.pending != [] {
      var t := Consume(cfg, OneBad(bad, now, whole), s, 0);
      assert t.pending == s.pending[1..];
      RestSucceeds(cfg, bad, now, whole, t, drain);
    }
  }

  /** An outage that does not trip, then only successes: the drain waits for nothing. */
  lemma {:induction false} BadThenGood(cfg: Config, bad: nat, now: real, whole: nat, s: Window, drain: nat)
    requires RunsOn(s, now) && drain >= whole && s.policy.outageStreak == 0 && |s.pending| >= 2
    requires s.pending[0].id == bad && forall i :: 1 <= i < |s.pending| ==> s.pending[i].id != bad
    ensures var w := OneBad(bad, now, whole);
            var u := Consume(cfg, w, s, 0);
            var r := DrainRest(cfg, w, u, drain, 0);
            && RunsOn(u, now) && u.wait
            && r.pending == [] && RunsOn(r, now) && r.wait && r.remaining == s.remaining
  {
    var w := OneBad(bad, now, whole);
    assert Hear(cfg, w, s.policy, s.readings) == s.policy;
    var u := Consume(cfg, w, s, 0);
    assert u.pending == s.pending[1..];
    RestSucceeds(cfg, bad, now, whole, u, drain);
  }

  /** Such a drain leaves the rest of the batch out. */
  lemma {:induction false} IdleWaitEndsLoop(cfg: Config, bad: nat, now: real, whole: nat, d: Window)
    requires RunsOn(d, now) && d.wait && d.pending == []
    ensures var r := Loop(cfg, OneBad(bad, now, whole), d); r.remaining == d.remaining && r.stop == Running
  {
    assert Hear(cfg, OneBad(bad, now, whole), d.policy, d.readings) == d.policy;
  }

  /** One turn of the loop. */
  lemma {:induction false} LoopStep(cfg: Config, w: World, s: Window)
    requires s.remaining != [] && Refill(cfg, w, s).pending != []
    ensures Loop(cfg, w, s) == Loop(cfg, w, Drain(cfg, w, Refill(cfg, w, s)))
  {
  }

  /** A turn that ends waiting for nothing leaves out what it has not taken. */
  lemma {:induction false} TurnStrands(cfg: Config, bad: nat, now: real, whole: nat, s: Window, t: Window, d: Window)
    requires s.remaining != [] && t == Refill(cfg, OneBad(bad, now, whole), s) && t.pending != []
    requires d == Drain(cfg, OneBad(bad, now, whole), t) && RunsOn(d, now) && d.wait && d.pending == []
    ensures var r := Loop(cfg, OneBad(bad, now, whole), s); r.remaining == d.remaining && r.stop == Running
  {
    LoopStep(cfg, OneBad(bad, now, whole), s);
    IdleWaitEndsLoop(cfg, bad, now, whole, d);
  }

  lemma {:induction false} RunStrands(cfg: Config, w: World, ms: seq<Row>, p: PolicyState, n: nat, r: Window)
    requires r == Loop(cfg, w, Begin(ms, p, n)) && r.stop == Running
    ensures Tail(Run(cfg, w, ms, p, n)) == r.remaining
  {
  }

  lemma {:induction false} CheckPasses(cfg: Config, bad: nat, now: real, whole: nat, s: Window) returns (c: Window)
    requires RunsOn(s, now) && !s.wait
    ensures Refill(cfg, OneBad(bad, now, whole), s) == Fill(cfg, OneBad(bad, now, whole), c)
    ensures RunsOn(c, now) && !c.wait && c.policy == s.policy && c.drains == s.drains
    ensures c.pending == s.pending && c.remaining == s.remaining
  {
    var w := OneBad(bad, now, whole);
    assert Hear(cfg, w, s.policy, s.readings) == s.policy;
    c := CheckDeadline(cfg, w, s);
  }

  lemma {:induction false} WindowFull(cfg: Config, bad: nat, now: real, whole: nat, s: Window)
    requires RunsOn(s, now) && !s.wait && |s.pending| < cfg.publishConcurrency && s.remaining != []
    requires cfg.publishConcurrency - |s.pending| <= Sendables(cfg, s.remaining[..|s.remaining| - 1])
    ensures var j := cfg.publishConcurrency - |s.pending|;
            var r := Refill(cfg, OneBad(bad, now, whole), s);
            && RunsOn(r, now) && !r.wait && r.policy == s.policy && r.drains == s.drains
            && r.pending == s.pending + First(cfg, s.remaining, j) && |r.pending| == cfg.publishConcurrency
            && r.remaining == Rest(cfg, s.remaining, j) && r.remaining != []
  {
    var c := CheckPasses(cfg, bad, now, whole, s);
    FillsUp(cfg, bad, now, whole, c);
  }

  /** The streak is not running: the first send meets the outage. */
  lemma {:induction false} StrandsAtOnce(cfg: Config, ms: seq<Row>, p: PolicyState, n: nat) returns (w: World)
    requires cfg.Valid() && UniqueIds(ms) && MayStrand(cfg, ms, p) && p.outageStreak == 0
    ensures Tail(Run(cfg, w, ms, p, n)) != []
  {
    var first, now := First(cfg, ms, cfg.publishConcurrency), Before(p);
    FirstAreRows(cfg, ms, cfg.publishConcurrency);
    FirstAndRest(cfg, ms, cfg.publishConcurrency);
    var bad := first[0].id;
    w := OneBad(bad, now, 0);
    var s := Begin(ms, p, n);
    WindowFull(cfg, bad, now, 0, s);
    var t := Refill(cfg, w, s);
    assert t.pending == first;
    BadDrains(cfg, bad, now, 0, t);
    TurnStrands(cfg, bad, now, 0, s, t, Drain(cfg, w, t));
    RunStrands(cfg, w, ms, p, n, Loop(cfg, w, s));
  }

  lemma {:induction false} BadDrains(cfg: Config, bad: nat, now: real, whole: nat, t: Window)
    requires RunsOn(t, now) && t.drains >= whole && t.policy.outageStreak == 0 && |t.pending| >= 2
    requires UniqueIds(t.pending) && t.pending[0].id == bad
    ensures var d := Drain(cfg, OneBad(bad, now, whole), t);
            d.pending == [] && RunsOn(d, now) && d.wait && d.remaining == t.remaining
  {
    DrainOldest(cfg, OneBad(bad, now, whole), t);
    BadThenGood(cfg, bad, now, whole, t.(wait := false, drains := t.drains + 1), t.drains);
  }

  /** The streak is running and the window holds three: the first send succeeds, the second
      meets the outage, and all finish together. */
  lemma {:induction false} StrandsAfterSuccess(cfg: Config, ms: seq<Row>, p: PolicyState, n: nat) returns (w: World)
    requires cfg.Valid() && UniqueIds(ms) && MayStrand(cfg, ms, p) && cfg.publishConcurrency >= 3
    ensures Tail(Run(cfg, w, ms, p, n)) != []
  {
    var first, now := First(cfg, ms, cfg.publishConcurrency), Before(p);
    FirstAreRows(cfg, ms, cfg.publishConcurrency);
    FirstAndRest(cfg, ms, cfg.publishConcurrency);
    var bad := first[1].id;
    w := OneBad(bad, now, 0);
    var s := Begin(ms, p, n);
    WindowFull(cfg, bad, now, 0, s);
    var t := Refill(cfg, w, s);
    assert t.pending == first;
    SuccessThenBad(cfg, bad, now, t);
    TurnStrands(cfg, bad, now, 0, s, t, Drain(cfg, w, t));
    RunStrands(cfg, w, ms, p, n, Loop(cfg, w, s));
  }

  lemma {:induction false} SuccessThenBad(cfg: Config, bad: nat, now: real, t: Window)
    requires RunsOn(t, now) && |t.pending| >= 3 && UniqueIds(t.pending) && t.pending[1].id == bad
    ensures var d := Drain(cfg, OneBad(bad, now, 0), t);
            d.pending == [] && RunsOn(d, now) && d.wait && d.remaining == t.remaining
  {
    var w := OneBad(bad, now, 0);
    DrainOldest(cfg, w, t);
    var u := GoodFirst(cfg, bad, now, 0, t.(wait := false, drains := t.drains + 1));
    SecondIsFirst(t.pending);
    BadRest(cfg, bad, now, u, t.drains);
  }

  lemma SecondIsFirst(q: seq<Row>)
    requires |q| >= 3 && UniqueIds(q)
    ensures q[0].id != q[1].id && q[1..][0] == q[1] && |q[1..]| >= 2
    ensures forall i :: 1 <= i < |q[1..]| ==> q[1..][i].id != q[1].id
  {
    forall i | 1 <= i < |q[1..]| ensures q[1..][i].id != q[1].id {
      assert q[1..][i] == q[i + 1];
    }
  }

  lemma {:induction false} BadRest(cfg: Config, bad: nat, now: real, s: Window, drain: nat)
    requires RunsOn(s, now) && s.policy.outageStreak == 0 && |s.pending| >= 2
    requires s.pending[0].id == bad && forall i :: 1 <= i < |s.pending| ==> s.pending[i].id != bad
    ensures var r := DrainRest(cfg, OneBad(bad, now, 0), s, drain, 0);
            r.pending == [] && RunsOn(r, now) && r.wait && r.remaining == s.remaining
  {
    BadThenGood(cfg, bad, now, 0, s, drain);
    RestTakes(cfg, OneBad(bad, now, 0), s, drain);
  }

  lemma {:induction false} GoodFirst(cfg: Config, bad: nat, now: real, whole: nat, s: Window) returns (u: Window)
    requires RunsOn(s, now) && s.pending != [] && s.pending[0].id != bad
    ensures u == Consume(cfg, OneBad(bad, now, whole), s, 0)
    ensures RunsOn(u, now) && u.pending == s.pending[1..] && u.remaining == s.remaining && u.wait == s.wait
    ensures u.policy == s.policy.Succeeded() && u.drains == s.drains
  {
    u := Consume(cfg, OneBad(bad, now, whole), s, 0);
    assert s.pending[..0] + s.pending[1..] == s.pending[1..];
  }

  lemma {:induction false} RestTakes(cfg: Config, w: World, s: Window, drain: nat)
    requires s.pending != [] && w.done(drain, s.pending[0].id)
    ensures DrainRest(cfg, w, s, drain, 0) == DrainRest(cfg, w, Consume(cfg, w, s, 0), drain, 0)
  {
  }

  lemma {:induction false} FirstThree(cfg: Config, ms: seq<Row>) returns (three: seq<Row>)
    requires UniqueIds(ms) && ms != [] && Sendables(cfg, ms[..|ms| - 1]) >= 3
    ensures |three| == 3 && UniqueIds(three)
    ensures First(cfg, ms, 2) == three[..2]
    ensures var rest := Rest(cfg, ms, 2);
            && rest != [] && 1 <= Sendables(cfg, rest[..|rest| - 1]) && First(cfg, rest, 1) == [three[2]]
  {
    three := First(cfg, ms, 3);
    FirstAreRows(cfg, ms, 3);
    FirstAndRest(cfg, ms, 3);
    FirstAndRest(cfg, ms, 2);
    FirstMore(cfg, ms, 2, 1);
  }

  /** The streak is running and the window holds two: a success by itself, a refill, and then
      the outage with the next success. */
  lemma {:induction false} StrandsAfterRefill(cfg: Config, ms: seq<Row>, p: PolicyState, n: nat) returns (w: World)
    requires cfg.Valid() && UniqueIds(ms) && cfg.publishConcurrency == 2 && ms != []
    requires Sendables(cfg, ms[..|ms| - 1]) >= 3
    ensures Tail(Run(cfg, w, ms, p, n)) != []
  {
    var three := FirstThree(cfg, ms);
    w := OneBad(three[1].id, Before(p), 1);
    var s := Begin(ms, p, n);
    TwoTurnsStrand(cfg, three, Before(p), s);
    RunStrands(cfg, w, ms, p, n, Loop(cfg, w, s));
  }

  lemma {:induction false} TwoTurnsStrand(cfg: Config, three: seq<Row>, now: real, s: Window)
    requires cfg.publishConcurrency == 2 && |three| == 3 && UniqueIds(three)
    requires RunsOn(s, now) && !s.wait && s.pending == [] && s.drains == 0
    requires s.remaining != [] && 2 <= Sendables(cfg, s.remaining[..|s.remaining| - 1])
    requires First(cfg, s.remaining, 2) == three[..2]
    requires var rest := Rest(cfg, s.remaining, 2);
             rest != [] && 1 <= Sendables(cfg, rest[..|rest| - 1]) && First(cfg, rest, 1) == [three[2]]
    ensures var r := Loop(cfg, OneBad(three[1].id, now, 1), s); r.remaining != [] && r.stop == Running
  {
    var w := OneBad(three[1].id, now, 1);
    WindowFull(cfg, three[1].id, now, 1, s);
    var t := Refill(cfg, w, s);
    FirstOfTwo(cfg, three, now, s, t);
    SecondTurnStrands(cfg, three, now, Drain(cfg, w, t));
  }

  lemma {:induction false} FirstOfTwo(cfg: Config, three: seq<Row>, now: real, s: Window, t: Window)
    requires |three| == 3 && UniqueIds(three) && s.remaining != []
    requires t == Refill(cfg, OneBad(three[1].id, now, 1), s)
    requires RunsOn(t, now) && t.pending == [] + three[..2] && t.drains == 0
    ensures var w := OneBad(three[1].id, now, 1);
            var d := Drain(cfg, w, t);
            && Loop(cfg, w, s) == Loop(cfg, w, d)
            && RunsOn(d, now) && !d.wait && d.pending == [three[1]] && d.remaining == t.remaining
            && d.drains == 1 && d.policy.outageStreak == 0
  {
    OneSucceeds(cfg, three[1].id, now, t);
    LoopStep(cfg, OneBad(three[1].id, now, 1), s);
  }

  /** After the success the streak does not run, and the window is refilled. */
  lemma {:induction false} SecondTurnStrands(cfg: Config, three: seq<Row>, now: real, d: Window)
    requires cfg.publishConcurrency == 2 && |three| == 3 && UniqueIds(three)
    requires RunsOn(d, now) && !d.wait && d.pending == [three[1]] && d.drains == 1 && d.policy.outageStreak == 0
    requires d.remaining != [] && 1 <= Sendables(cfg, d.remaining[..|d.remaining| - 1])
    requires First(cfg, d.remaining, 1) == [three[2]]
    ensures var r := Loop(cfg, OneBad(three[1].id, now, 1), d); r.remaining != [] && r.stop == Running
  {
    var bad := three[1].id;
    WindowFull(cfg, bad, now, 1, d);
    var t := Refill(cfg, OneBad(bad, now, 1), d);
    assert t.pending == [three[1], three[2]];
    BadDrains(cfg, bad, now, 1, t);
    TurnStrands(cfg, bad, now, 1, d, t, Drain(cfg, OneBad(bad, now, 1), t));
  }

  lemma {:induction false} NoneDone(cfg: Config, w: World, s: Window, drain: nat, i: nat)
    requires i <= |s.pending| && forall id :: !w.done(drain, id)
    ensures DrainRest(cfg, w, s, drain, i) == s
    decreases |s.pending| - i
  {
    if i < |s.pending| { NoneDone(cfg, w, s, drain, i + 1); }
  }

  /** The first drain takes one success only. */
  lemma {:induction false} OneSucceeds(cfg: Config, bad: nat, now: real, t: Window)
    requires RunsOn(t, now) && |t.pending| == 2 && t.pending[0].id != bad && t.drains == 0
    ensures var d := Drain(cfg, OneBad(bad, now, 1), t);
            && RunsOn(d, now) && !d.wait && d.pending == [t.pending[1]] && d.remaining == t.remaining
            && d.policy == t.policy.Succeeded() && d.drains == 1
  {
    var w := OneBad(bad, now, 1);
    DrainOldest(cfg, w, t);
    var u := GoodFirst(cfg, bad, now, 1, t.(wait := false, drains := 1));
    NoneDone(cfg, w, u, 0, 0);
  }

  /** The exact condition: every schedule classifies the whole batch if and only if the window is
      one or too few rows before the last one may still be sent. */
  lemma {:induction false} AlwaysClassifiedIff(cfg: Config, ms: seq<Row>, p: PolicyState, n: nat)
    requires cfg.Valid() && UniqueIds(ms)
    ensures (forall w: World :: Tail(Run(cfg, w, ms, p, n)) == []) <==> !MayStrand(cfg, ms, p)
  {
    if MayStrand(cfg, ms, p) {
      var w;
      if p.outageStreak == 0 {
        w := StrandsAtOnce(cfg, ms, p, n);
      } else if cfg.publishConcurrency >= 3 {
        w := StrandsAfterSuccess(cfg, ms, p, n);
      } else {
        w := StrandsAfterRefill(cfg, ms, p, n);
      }
      assert Tail(Run(cfg, w, ms, p, n)) != [];
    } else {
      forall w: World ensures Tail(Run(cfg, w, ms, p, n)) == [] {
        NoTail(cfg, w, ms, p, n);
      }
    }
  }

  lemma NoTail(cfg: Config, w: World, ms: seq<Row>, p: PolicyState, n: nat)
    requires cfg.Valid() && !MayStrand(cfg, ms, p)
    ensures Tail(Run(cfg, w, ms, p, n)) == []
  {
    if Tail(Run(cfg, w, ms, p, n)) != [] {
      TailNeeds(cfg, w, ms, p, n);
      assert false;
    }
  }
}
