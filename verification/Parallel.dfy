/** One batch of the sliding-window loop (django_celery_outbox/relay/_relay.py,
    `_process_messages_parallel`), for every order in which sends may finish. */
module Parallel {
  import opened Types
  import opened Policy
  import opened Engine
  import opened Serial

  datatype Stop = Running | ByShutdown | ByBreaker

  /** The loop's variables. `settled` with `fates` says which messages reached which of the
      result lists, in the order it happened; `pending` is in submission order. `late`
      counts the sends consumed after the first trip of the breaker, `seen` is the check that
      found the deadline passed. */
  datatype Window = Window(
    remaining: seq<Row>,
    pending: seq<Row>,
    settled: seq<Row>,
    fates: seq<Fate>,
    policy: PolicyState,
    readings: nat,
    drains: nat,
    stop: Stop,
    breakerExc: bool,
    wait: bool,
    late: nat,
    events: seq<Event>,
    seen: Option<Sighting>)
  {
    ghost predicate Valid() { |settled| == |fates| }

    function Measure(): nat { 2 * |remaining| + |pending| }

    function Settle(m: Row, f: Fate): Window {
      this.(settled := settled + [m], fates := fates + [f])
    }

    function Read(cfg: Config, w: World): Window {
      this.(policy := Hear(cfg, w, policy, readings),
            readings := readings + 1,
            events := events + SignalEvents(w.signals(readings)))
    }

    /** The latest clock reading finds the deadline passed. */
    function CutOff(): Window
      requires readings > 0
    {
      this.(stop := ByShutdown, seen := Some(Sighting(readings - 1, |events|, remaining)))
    }

    /** A failed attempt, `_classify_parallel_publish_exception`. */
    function Fail(cfg: Config, w: World, m: Row, a: Attempt): Window {
      if a.BrokerDown? then
        var now := w.clock(readings);
        var t := Read(cfg, w);
        t.(policy := t.policy.Failed(now, cfg.cooldown), events := t.events + [Event.Outage(now)]).Settle(m, Deferred)
      else
        Settle(m, RefusedFate(cfg, m))
    }
  }

  function Begin(ms: seq<Row>, p: PolicyState, n: nat): Window {
    Window(ms, [], [], [], p, n, 0, Running, false, false, 0, [], None)
  }

  predicate FailsEarly(a: Attempt) { !a.Accepted? && a.stage == Preparing }

  predicate MayFill(cfg: Config, s: Window) {
    s.remaining != [] && |s.pending| < cfg.publishConcurrency && s.stop == Running
  }

  /** One iteration of `_fill_parallel_window`. */
  function FillOne(cfg: Config, w: World, s: Window): (r: Window)
    requires MayFill(cfg, s)
    ensures r.Measure() < s.Measure() || (r.stop != Running && r.Measure() == s.Measure())
    ensures |r.pending| >= |s.pending| && |r.remaining| <= |s.remaining|
    ensures r.stop == Running ==> |r.remaining| < |s.remaining|
  {
    var t := s.Read(cfg, w);
    if t.policy.DeadlineExceeded(w.clock(s.readings)) then t.CutOff() else TakeOne(cfg, w, t)
  }

  /** The part of that iteration after the deadline check. */
  function TakeOne(cfg: Config, w: World, s: Window): Window
    requires s.remaining != []
  {
    var m, u := s.remaining[0], s.(remaining := s.remaining[1..]);
    var a := w.attempt(m.id);
    if m.retries >= cfg.maxRetries then u.Settle(m, PreExceeded)
    else if !FailsEarly(a) then u.(pending := u.pending + [m])
    else if a.BrokerDown? && u.policy.Trips() then u.Fail(cfg, w, m, a).(stop := ByBreaker, breakerExc := true)
    else u.Fail(cfg, w, m, a)
  }

  /** `_fill_parallel_window`, once it is allowed to fill. */
  function Fill(cfg: Config, w: World, s: Window): (r: Window)
    ensures r.Measure() <= s.Measure()
    ensures |r.pending| >= |s.pending|
    decreases |s.remaining|, s.stop == Running
  {
    if MayFill(cfg, s) then Fill(cfg, w, FillOne(cfg, w, s)) else s
  }

  /** `_process_parallel_completion` */
  function Complete(cfg: Config, w: World, s: Window, m: Row): Window {
    if w.attempt(m.id).Accepted? then
      s.(policy := s.policy.Succeeded(), events := s.events + [Sent]).Settle(m, Published)
    else s.Fail(cfg, w, m, w.attempt(m.id))
  }

  /** The `i`-th send in flight is taken out of `pending`. */
  function Landed(s: Window, i: nat): Window
    requires i < |s.pending|
  {
    s.(pending := s.pending[..i] + s.pending[i + 1..], late := if s.breakerExc then s.late + 1 else s.late)
  }

  /** `_consume_parallel_future` on the `i`-th send in flight; the wait flag accumulates. */
  function Consume(cfg: Config, w: World, s: Window, i: nat): (r: Window)
    requires i < |s.pending|
    ensures r.remaining == s.remaining
    ensures r.pending == s.pending[..i] + s.pending[i + 1..]
  {
    var m := s.pending[i];
    var t := Landed(s, i);
    var a := w.attempt(m.id);
    var x := Complete(cfg, w, t, m);
    if !a.BrokerDown? then x
    else if t.policy.Trips() && s.stop == ByShutdown then x.(breakerExc := true)
    else if t.policy.Trips() then x.(stop := ByBreaker, breakerExc := true, wait := s.wait || t.pending != [])
    else x.(wait := s.wait || t.pending != [])
  }

  /** The other sends found finished by the same drain, in submission order. */
  function DrainRest(cfg: Config, w: World, s: Window, drain: nat, i: nat): (r: Window)
    requires i <= |s.pending|
    ensures r.remaining == s.remaining && |r.pending| <= |s.pending|
    decreases |s.pending| - i
  {
    if i == |s.pending| then s
    else if w.done(drain, s.pending[i].id) then DrainRest(cfg, w, Consume(cfg, w, s, i), drain, i)
    else DrainRest(cfg, w, s, drain, i + 1)
  }

  /** `_drain_parallel_completions`: one send is waited for, then any others that are done. */
  function Drain(cfg: Config, w: World, s: Window): (r: Window)
    requires s.pending != []
    ensures r.remaining == s.remaining && |r.pending| < |s.pending|
  {
    var t := Consume(cfg, w, s.(wait := false, drains := s.drains + 1), w.first(s.drains) % |s.pending|);
    DrainRest(cfg, w, t, s.drains, 0)
  }

  /** A drain that takes the oldest send first. */
  lemma {:induction false} DrainOldest(cfg: Config, w: World, t: Window)
    requires t.pending != [] && w.first(t.drains) == 0
    ensures Drain(cfg, w, t)
            == DrainRest(cfg, w, Consume(cfg, w, t.(wait := false, drains := t.drains + 1), 0), t.drains, 0)
  {
  }

  function CheckDeadline(cfg: Config, w: World, s: Window): Window {
    if s.stop != Running then s
    else
      var t := s.Read(cfg, w);
      if t.policy.DeadlineExceeded(w.clock(s.readings)) then t.CutOff() else t
  }

  /** An iteration up to the drain: the deadline check, then the window unless it must wait. */
  function Refill(cfg: Config, w: World, s: Window): (r: Window)
    ensures r.Measure() <= s.Measure()
    ensures |r.pending| >= |s.pending|
  {
    var t := CheckDeadline(cfg, w, s);
    if t.wait then t else Fill(cfg, w, t)
  }

  function Loop(cfg: Config, w: World, s: Window): (r: Window)
    decreases s.Measure()
  {
    if s.pending == [] && s.remaining == [] then s
    else
      var t := Refill(cfg, w, s);
      if t.pending == [] then t else Loop(cfg, w, Drain(cfg, w, t))
  }

  /** What is done with `remaining` after the loop. */
  function Finish(cfg: Config, s: Window): Window {
    if s.stop == ByShutdown then
      s.(settled := s.settled + s.remaining, fates := s.fates + seq(|s.remaining|, _ => Aborted))
    else if s.stop == ByBreaker && s.breakerExc then
      s.(settled := s.settled + s.remaining, fates := s.fates + BreakerFates(cfg, s.remaining))
    else s
  }

  function Run(cfg: Config, w: World, ms: seq<Row>, p: PolicyState, n: nat): Window {
    Finish(cfg, Loop(cfg, w, Begin(ms, p, n)))
  }

  /** The messages that reach no list at all. */
  function Tail(s: Window): seq<Row> {
    if s.stop == Running then s.remaining else []
  }

  // ---- The window's invariant ---------------------------------------------------------------

  /** Every message of the batch is settled, in flight or remaining, and only once. */
  ghost predicate Balanced(ms: seq<Row>, settled: seq<Row>, pending: seq<Row>, remaining: seq<Row>) {
    multiset(settled) + multiset(pending) + multiset(remaining) == multiset(ms)
  }

  ghost predicate IsSuffix(a: seq<Row>, ms: seq<Row>) {
    |a| <= |ms| && a == ms[|ms| - |a|..]
  }

  ghost predicate Sendable(cfg: Config, w: World, rows: seq<Row>) {
    forall i :: 0 <= i < |rows| ==> 
      && rows[i].retries < cfg.maxRetries
      && w.attempt(rows[i].id) != Refused(Preparing) && w.attempt(rows[i].id) != BrokerDown(Preparing)
  }

  ghost predicate AllFit(cfg: Config, w: World, rows: seq<Row>, fates: seq<Fate>)
    requires |rows| == |fates|
  {
    forall i :: 0 <= i < |rows| ==> Fits(cfg, w, rows[i], fates[i])
  }

  ghost predicate Sound(cfg: Config, w: World, ms: seq<Row>, s: Window) {
    && s.Valid()
    && |s.pending| <= cfg.publishConcurrency
    && (s.stop == ByBreaker ==> s.breakerExc)
    && Balanced(ms, s.settled, s.pending, s.remaining)
    && IsSuffix(s.remaining, ms)
    && Sendable(cfg, w, s.pending)
    && AllFit(cfg, w, s.settled, s.fates)
  }

  /** The rest of the window does not matter for that. */
  lemma SoundSame(cfg: Config, w: World, ms: seq<Row>, s: Window, r: Window)
    requires Sound(cfg, w, ms, s)
    requires r.settled == s.settled && r.fates == s.fates && r.pending == s.pending && r.remaining == s.remaining
    requires r.stop == ByBreaker ==> r.breakerExc
    ensures Sound(cfg, w, ms, r)
  {
  }

  /** Once set, the stop reason stays, and nothing more is taken from `remaining`. */
  ghost predicate StopHolds(s: Window, r: Window) {
    s.stop != Running ==> r.stop == s.stop && r.remaining == s.remaining
  }

  lemma RemoveAt<T>(rows: seq<T>, i: nat)
    requires i < |rows|
    ensures multiset(rows) == multiset(rows[..i] + rows[i + 1..]) + multiset([rows[i]])
  {
    assert rows == rows[..i] + ([rows[i]] + rows[i + 1..]);
  }

  lemma MoveBalance(settled: multiset<Row>, rest: multiset<Row>, m: multiset<Row>)
    ensures (settled + m) + rest == settled + (rest + m)
  {
  }

  /** Taking the first remaining message and settling it keeps the window sound. */
  lemma SettleHead(cfg: Config, w: World, ms: seq<Row>, s: Window, r: Window, f: Fate)
    requires Sound(cfg, w, ms, s) && s.remaining != [] && Fits(cfg, w, s.remaining[0], f)
    requires r.settled == s.settled + [s.remaining[0]] && r.fates == s.fates + [f]
    requires r.remaining == s.remaining[1..] && r.pending == s.pending
    requires r.stop == ByBreaker ==> r.breakerExc
    ensures Sound(cfg, w, ms, r)
  {
    assert s.remaining == [s.remaining[0]] + r.remaining;
  }

  lemma SubmitHead(cfg: Config, w: World, ms: seq<Row>, s: Window, r: Window)
    requires Sound(cfg, w, ms, s) && s.remaining != [] && |s.pending| < cfg.publishConcurrency
    requires s.remaining[0].retries < cfg.maxRetries && !FailsEarly(w.attempt(s.remaining[0].id))
    requires r.settled == s.settled && r.fates == s.fates
    requires r.remaining == s.remaining[1..] && r.pending == s.pending + [s.remaining[0]]
    requires r.stop == ByBreaker ==> r.breakerExc
    ensures Sound(cfg, w, ms, r)
  {
    assert s.remaining == [s.remaining[0]] + r.remaining;
  }

  lemma FillOneSound(cfg: Config, w: World, ms: seq<Row>, s: Window)
    requires cfg.Valid() && Sound(cfg, w, ms, s) && MayFill(cfg, s)
    ensures Sound(cfg, w, ms, FillOne(cfg, w, s))
  {
    var r, m := FillOne(cfg, w, s), s.remaining[0];
    var t := s.Read(cfg, w);
    var a := w.attempt(m.id);
    if t.policy.DeadlineExceeded(w.clock(s.readings)) {
      SoundSame(cfg, w, ms, s, r);
    } else if m.retries >= cfg.maxRetries {
      SettleHead(cfg, w, ms, s, r, PreExceeded);
    } else if !FailsEarly(a) {
      SubmitHead(cfg, w, ms, s, r);
    } else {
      SettleHead(cfg, w, ms, s, r, if a.BrokerDown? then Deferred else RefusedFate(cfg, m));
    }
  }

  lemma {:induction false} FillSound(cfg: Config, w: World, ms: seq<Row>, s: Window)
    requires cfg.Valid() && Sound(cfg, w, ms, s)
    ensures Sound(cfg, w, ms, Fill(cfg, w, s))
    decreases |s.remaining|, s.stop == Running
  {
    if MayFill(cfg, s) {
      FillOneSound(cfg, w, ms, s);
      FillSound(cfg, w, ms, FillOne(cfg, w, s));
    }
  }

  lemma {:induction false} FillEnds(cfg: Config, w: World, s: Window)
    ensures var r := Fill(cfg, w, s);
            && StopHolds(s, r) && !MayFill(cfg, r)
            && (s.stop == Running && r.stop == ByBreaker ==> |r.pending| < cfg.publishConcurrency)
            && r.wait == s.wait && r.drains == s.drains
    decreases |s.remaining|, s.stop == Running
  {
    if MayFill(cfg, s) {
      FillEnds(cfg, w, FillOne(cfg, w, s));
    }
  }

  /** Settling the `i`-th message in flight keeps the window sound. */
  lemma SettlePending(cfg: Config, w: World, ms: seq<Row>, s: Window, r: Window, i: nat, f: Fate)
    requires Sound(cfg, w, ms, s) && i < |s.pending| && Fits(cfg, w, s.pending[i], f)
    requires r.settled == s.settled + [s.pending[i]] && r.fates == s.fates + [f]
    requires r.remaining == s.remaining && r.pending == s.pending[..i] + s.pending[i + 1..]
    requires r.stop == ByBreaker ==> r.breakerExc
    ensures Sound(cfg, w, ms, r)
  {
    RemoveAt(s.pending, i);
    MoveBalance(multiset(s.settled), multiset(r.pending), multiset([s.pending[i]]));
    forall j | 0 <= j < |r.pending| ensures r.pending[j] == s.pending[if j < i then j else j + 1] {}
  }

  lemma ConsumeSound(cfg: Config, w: World, ms: seq<Row>, s: Window, i: nat)
    requires cfg.Valid() && Sound(cfg, w, ms, s) && i < |s.pending|
    ensures Sound(cfg, w, ms, Consume(cfg, w, s, i))
  {
    var m := s.pending[i];
    var f := match w.attempt(m.id)
             case Accepted => Published
             case Refused(_) => RefusedFate(cfg, m)
             case BrokerDown(_) => Deferred;
    SettlePending(cfg, w, ms, s, Consume(cfg, w, s, i), i, f);
  }

  lemma ConsumeStops(cfg: Config, w: World, s: Window, i: nat)
    requires i < |s.pending| <= cfg.publishConcurrency
    ensures var r := Consume(cfg, w, s, i);
            && StopHolds(s, r)
            && r.drains == s.drains
            && (s.stop == Running && r.stop != Running ==> r.stop == ByBreaker && |r.pending| < cfg.publishConcurrency)
  {
  }

  lemma {:induction false} DrainRestSound(cfg: Config, w: World, ms: seq<Row>, s: Window, drain: nat, i: nat)
    requires cfg.Valid() && Sound(cfg, w, ms, s) && i <= |s.pending|
    ensures Sound(cfg, w, ms, DrainRest(cfg, w, s, drain, i))
    decreases |s.pending| - i
  {
    if i == |s.pending| {
    } else if w.done(drain, s.pending[i].id) {
      ConsumeSound(cfg, w, ms, s, i);
      DrainRestSound(cfg, w, ms, Consume(cfg, w, s, i), drain, i);
    } else {
      DrainRestSound(cfg, w, ms, s, drain, i + 1);
    }
  }

  lemma {:induction false} DrainRestStops(cfg: Config, w: World, s: Window, drain: nat, i: nat)
    requires i <= |s.pending| <= cfg.publishConcurrency
    ensures var r := DrainRest(cfg, w, s, drain, i);
            && StopHolds(s, r) && r.drains == s.drains
            && (s.stop == Running && r.stop != Running ==> r.stop == ByBreaker)
    decreases |s.pending| - i
  {
    if i == |s.pending| {
    } else if w.done(drain, s.pending[i].id) {
      ConsumeStops(cfg, w, s, i);
      DrainRestStops(cfg, w, Consume(cfg, w, s, i), drain, i);
    } else {
      DrainRestStops(cfg, w, s, drain, i + 1);
    }
  }

  lemma DrainSound(cfg: Config, w: World, ms: seq<Row>, s: Window)
    requires cfg.Valid() && Sound(cfg, w, ms, s) && s.pending != []
    ensures Sound(cfg, w, ms, Drain(cfg, w, s))
  {
    var s0 := s.(wait := false, drains := s.drains + 1);
    SoundSame(cfg, w, ms, s, s0);
    FirstAndRestSound(cfg, w, ms, s0, w.first(s.drains) % |s.pending|, s.drains);
  }

  lemma FirstAndRestSound(cfg: Config, w: World, ms: seq<Row>, s: Window, i: nat, drain: nat)
    requires cfg.Valid() && Sound(cfg, w, ms, s) && i < |s.pending|
    ensures Sound(cfg, w, ms, DrainRest(cfg, w, Consume(cfg, w, s, i), drain, 0))
  {
    ConsumeSound(cfg, w, ms, s, i);
    DrainRestSound(cfg, w, ms, Consume(cfg, w, s, i), drain, 0);
  }

  lemma DrainStops(cfg: Config, w: World, s: Window)
    requires 0 < |s.pending| <= cfg.publishConcurrency
    ensures StopHolds(s, Drain(cfg, w, s))
    ensures Drain(cfg, w, s).drains == s.drains + 1
    ensures s.stop == Running && Drain(cfg, w, s).stop != Running ==> Drain(cfg, w, s).stop == ByBreaker
  {
    var s0 := s.(wait := false, drains := s.drains + 1);
    var i := w.first(s.drains) % |s.pending|;
    ConsumeStops(cfg, w, s0, i);
    DrainRestStops(cfg, w, Consume(cfg, w, s0, i), s.drains, 0);
  }

  lemma RefillSound(cfg: Config, w: World, ms: seq<Row>, s: Window)
    requires cfg.Valid() && Sound(cfg, w, ms, s)
    ensures Sound(cfg, w, ms, Refill(cfg, w, s))
  {
    SoundSame(cfg, w, ms, s, CheckDeadline(cfg, w, s));
    FillSound(cfg, w, ms, CheckDeadline(cfg, w, s));
  }

  lemma RefillEnds(cfg: Config, w: World, s: Window)
    ensures var r := Refill(cfg, w, s);
            && StopHolds(s, r) && (r.wait || !MayFill(cfg, r))
            && r.wait == s.wait && r.drains == s.drains
            && (r.wait ==> r.remaining == s.remaining && r.pending == s.pending)
  {
    FillEnds(cfg, w, CheckDeadline(cfg, w, s));
  }

  /** The loop keeps the window sound. */
  lemma {:induction false} LoopSound(cfg: Config, w: World, ms: seq<Row>, s: Window)
    requires cfg.Valid() && Sound(cfg, w, ms, s)
    ensures Sound(cfg, w, ms, Loop(cfg, w, s))
    decreases s.Measure()
  {
    if s.pending != [] || s.remaining != [] {
      var t := Refill(cfg, w, s);
      RefillSound(cfg, w, ms, s);
      if t.pending != [] {
        DrainSound(cfg, w, ms, t);
        LoopSound(cfg, w, ms, Drain(cfg, w, t));
      }
    }
  }

  /** The loop ends with nothing in flight; a stop reason, once set, is never changed or
      cleared; and messages stay in `remaining` without one only when the loop was waiting. */
  lemma {:induction false} LoopEnds(cfg: Config, w: World, ms: seq<Row>, s: Window)
    requires cfg.Valid() && Sound(cfg, w, ms, s)
    ensures var r := Loop(cfg, w, s);
            && StopHolds(s, r) && r.pending == []
            && (r.stop == Running && r.remaining != [] ==> r.wait)
    decreases s.Measure()
  {
    if s.pending != [] || s.remaining != [] {
      var t := Refill(cfg, w, s);
      RefillSound(cfg, w, ms, s);
      RefillEnds(cfg, w, s);
      if t.pending != [] {
        DrainSound(cfg, w, ms, t);
        DrainStops(cfg, w, t);
        LoopEnds(cfg, w, ms, Drain(cfg, w, t));
      }
    }
  }

  lemma BeginSound(cfg: Config, w: World, ms: seq<Row>, p: PolicyState, n: nat)
    ensures Sound(cfg, w, ms, Begin(ms, p, n))
  {
  }

  // ---- Partition, lawfulness ------------------------------------------------------------------

  lemma FinishSettles(cfg: Config, w: World, ms: seq<Row>, s: Window)
    requires cfg.Valid() && Sound(cfg, w, ms, s) && s.pending == []
    ensures var r := Finish(cfg, s);
            && r.Valid() && r.stop == s.stop
            && Tail(r) == Tail(s)
            && multiset(r.settled) + multiset(Tail(r)) == multiset(ms)
            && AllFit(cfg, w, r.settled, r.fates)
  {
    assert multiset(s.pending) == multiset{};
    if s.stop != Running {
      assert Finish(cfg, s).settled == s.settled + s.remaining;
      assert multiset(s.settled + s.remaining) == multiset(s.settled) + multiset(s.remaining);
      FinishFits(cfg, w, ms, s);
    }
  }

  lemma FinishFits(cfg: Config, w: World, ms: seq<Row>, s: Window)
    requires cfg.Valid() && Sound(cfg, w, ms, s) && s.stop != Running
    ensures var r := Finish(cfg, s); r.Valid() && AllFit(cfg, w, r.settled, r.fates)
  {
    var r := Finish(cfg, s);
    forall i | 0 <= i < |r.settled| ensures Fits(cfg, w, r.settled[i], r.fates[i]) {
      if i >= |s.settled| {
        var m := s.remaining[i - |s.settled|];
        assert r.fates[i] == if s.stop == ByShutdown then Aborted else BreakerFate(cfg, m);
      }
    }
  }

  lemma CancelOne(a: multiset<Row>, b: multiset<Row>, m: multiset<Row>)
    requires a + m == b + m
    ensures a == b
  {
    forall r ensures a[r] == b[r] {
      assert (a + m)[r] == a[r] + m[r] && (b + m)[r] == b[r] + m[r];
    }
    assert a <= b && b <= a;
  }

  lemma {:induction false} IdsOfMultiset(a: seq<Row>, b: seq<Row>)
    requires multiset(a) == multiset(b)
    ensures multiset(Ids(a)) == multiset(Ids(b))
    decreases |a|
  {
    if a == [] {
      assert |multiset(a)| == 0;
    } else {
      assert a[0] in multiset(b);
      var i :| 0 <= i < |b| && b[i] == a[0];
      RemoveAt(b, i);
      RemoveAt(a, 0);
      assert a[..0] + a[1..] == a[1..];
      CancelOne(multiset(a[1..]), multiset(b[..i] + b[i + 1..]), multiset([a[0]]));
      IdsOfMultiset(a[1..], b[..i] + b[i + 1..]);
      IdsWithout(a, 0);
      IdsWithout(b, i);
    }
  }

  lemma IdsWithout(a: seq<Row>, i: nat)
    requires i < |a|
    ensures multiset(Ids(a)) == multiset(Ids(a[..i] + a[i + 1..])) + multiset{a[i].id}
  {
    var b := a[..i] + a[i + 1..];
    IdsLineUp(a, b, i, Ids(a), Ids(b));
    RemoveAt(Ids(a), i);
  }

  lemma IdsLineUp(a: seq<Row>, b: seq<Row>, i: nat, xs: seq<nat>, ys: seq<nat>)
    requires i < |a| && b == a[..i] + a[i + 1..] && |xs| == |a| && |ys| == |b|
    requires forall j :: 0 <= j < |a| ==> xs[j] == a[j].id
    requires forall j :: 0 <= j < |b| ==> ys[j] == b[j].id
    ensures ys == xs[..i] + xs[i + 1..]
  {
    forall j | 0 <= j < |ys| ensures ys[j] == (xs[..i] + xs[i + 1..])[j] {
      assert b[j] == a[if j < i then j else j + 1];
    }
  }

  /** For every completion order, the five lists and the tail hold every message of the
      batch exactly once. */
  lemma {:induction false} ParallelPartitions(cfg: Config, w: World, ms: seq<Row>, p: PolicyState, n: nat)
    requires cfg.Valid()
    ensures var r := Run(cfg, w, ms, p, n);
            && r.Valid()
            && Classified(Listing(r.settled, r.fates)) + multiset(Ids(Tail(r))) == multiset(Ids(ms))
            && |Tail(r)| <= |ms| && Tail(r) == ms[|ms| - |Tail(r)|..]
  {
    var s, r := Loop(cfg, w, Begin(ms, p, n)), Run(cfg, w, ms, p, n);
    BeginSound(cfg, w, ms, p, n);
    LoopSound(cfg, w, ms, Begin(ms, p, n));
    LoopEnds(cfg, w, ms, Begin(ms, p, n));
    FinishSettles(cfg, w, ms, s);
    ListingPartitions(r.settled, r.fates);
    SettledIds(r.settled, Tail(r), ms);
  }

  lemma SettledIds(rows: seq<Row>, tail: seq<Row>, ms: seq<Row>)
    requires multiset(rows) + multiset(tail) == multiset(ms)
    ensures multiset(Ids(rows)) + multiset(Ids(tail)) == multiset(Ids(ms))
  {
    IdsOfMultiset(rows + tail, ms);
    IdsAppend(rows, tail);
  }

  lemma SubsetOfUnique(rows: seq<Row>, tail: seq<Row>, ms: seq<Row>)
    requires multiset(rows) + multiset(tail) == multiset(ms) && UniqueIds(ms)
    ensures UniqueIds(rows)
    ensures forall m :: m in ms <==> m in rows || m in tail
    ensures forall m, t :: m in rows && t in tail ==> m.id != t.id
  {
    SameRows(rows, tail, ms);
    SettledIds(rows, tail, ms);
    forall id ensures multiset(Ids(rows))[id] + multiset(Ids(tail))[id] <= 1 { UniqueIdsOnce(ms, id); }
    OnceEach(rows);
    forall m, t | m in rows && t in tail ensures m.id != t.id {
      IdOf(rows, m);
      IdOf(tail, t);
    }
  }

  lemma SameRows(rows: seq<Row>, tail: seq<Row>, ms: seq<Row>)
    requires multiset(rows) + multiset(tail) == multiset(ms)
    ensures forall m :: m in ms <==> m in rows || m in tail
  {
    forall m ensures m in ms <==> m in rows || m in tail {
      assert m in ms <==> m in multiset(ms);
    }
  }

  lemma OnceEach(rows: seq<Row>)
    requires forall id :: multiset(Ids(rows))[id] <= 1
    ensures UniqueIds(rows)
  {
    forall i, j | 0 <= i < j < |rows| ensures rows[i].id != rows[j].id {
      if rows[i].id == rows[j].id { TwiceInMultiset(Ids(rows), i, j); }
    }
  }

  lemma IdOf(rows: seq<Row>, m: Row)
    requires m in rows
    ensures multiset(Ids(rows))[m.id] >= 1
  {
    var i :| 0 <= i < |rows| && rows[i] == m;
    assert Ids(rows)[i] == m.id;
  }

  /** For every completion order the lists account lawfully for the attempts made. */
  lemma {:induction false} ParallelIsLawful(cfg: Config, w: World, ms: seq<Row>, p: PolicyState, n: nat)
    requires cfg.Valid() && UniqueIds(ms)
    ensures var r := Run(cfg, w, ms, p, n);
            r.Valid() && Lawful(cfg, ms, Attempts(w, r.settled, r.fates), Listing(r.settled, r.fates))
  {
    var s, r := Loop(cfg, w, Begin(ms, p, n)), Run(cfg, w, ms, p, n);
    BeginSound(cfg, w, ms, p, n);
    LoopSound(cfg, w, ms, Begin(ms, p, n));
    LoopEnds(cfg, w, ms, Begin(ms, p, n));
    FinishSettles(cfg, w, ms, s);
    SubsetOfUnique(r.settled, Tail(r), ms);
    ListingPartitions(r.settled, r.fates);
    FittingFatesAreLawful(cfg, w, r.settled, r.fates);
    ParallelPartitions(cfg, w, ms, p, n);
    LawfulWithTail(cfg, r.settled, Tail(r), ms, Attempts(w, r.settled, r.fates), Listing(r.settled, r.fates));
  }

  lemma LawfulWithTail(cfg: Config, rows: seq<Row>, tail: seq<Row>, ms: seq<Row>, attempts: map<nat, Attempt>, l: Lists)
    requires Lawful(cfg, rows, attempts, l) && UniqueIds(rows)
    requires forall m :: m in ms <==> m in rows || m in tail
    requires forall m, t :: m in rows && t in tail ==> m.id != t.id
    requires Classified(l) <= multiset(Ids(ms))
    ensures Lawful(cfg, ms, attempts, l)
  {
    forall m | m in ms ensures Justified(cfg, attempts, l, m) {
      if m !in rows {
        OneList(cfg, rows, attempts, l, m.id);
        Listed(l, m);
      }
    }
    forall id | id in attempts ensures id in (set m | m in ms :: m.id) {
      var m :| m in rows && m.id == id;
      assert m in ms;
    }
  }

  // ---- The unclassified tail --------------------------------------------------------------------

  /** `x` is what one of the drains of the run from `s` starts from. */
  ghost predicate DrainsFrom(cfg: Config, w: World, s: Window, x: Window)
    decreases s.Measure()
  {
    && (s.pending != [] || s.remaining != [])
    && (var t := Refill(cfg, w, s);
        && t.pending != []
        && (x == t || DrainsFrom(cfg, w, Drain(cfg, w, t), x)))
  }

  /** The drain from `x` told the loop to wait for sends in flight and then took the last of
      them, before anything else stopped the loop; the deadline check that follows passes. */
  ghost predicate WaitsForNothing(cfg: Config, w: World, x: Window)
    requires x.pending != []
  {
    var d := Drain(cfg, w, x);
    && d.wait && d.pending == [] && d.stop == Running && d.remaining != []
    && !Hear(cfg, w, d.policy, d.readings).DeadlineExceeded(w.clock(d.readings))
  }

  /** Messages are left out of all five lists exactly when some drain ends with the wait
      flag up and nothing left in flight. */
  lemma {:induction false} TailIff(cfg: Config, w: World, ms: seq<Row>, s: Window)
    requires cfg.Valid() && Sound(cfg, w, ms, s)
    requires s.wait ==> s.pending != []
    ensures Tail(Loop(cfg, w, s)) != [] <==>
              exists x :: DrainsFrom(cfg, w, s, x) && x.pending != [] && WaitsForNothing(cfg, w, x)
    decreases s.Measure()
  {
    if s.pending == [] && s.remaining == [] {
    } else {
      var t := Refill(cfg, w, s);
      RefillSound(cfg, w, ms, s);
      RefillEnds(cfg, w, s);
      if t.pending != [] {
        var d := Drain(cfg, w, t);
        DrainSound(cfg, w, ms, t);
        assert DrainsFrom(cfg, w, s, t);
        if d.wait && d.pending == [] {
          EndsAfterIdleWait(cfg, w, ms, d);
          assert forall x :: DrainsFrom(cfg, w, s, x) ==> x == t;
        } else {
          TailIff(cfg, w, ms, d);
          assert forall x :: DrainsFrom(cfg, w, d, x) ==> DrainsFrom(cfg, w, s, x);
        }
      }
    }
  }

  lemma EndsAfterIdleWait(cfg: Config, w: World, ms: seq<Row>, d: Window)
    requires cfg.Valid() && Sound(cfg, w, ms, d) && d.wait && d.pending == []
    ensures Refill(cfg, w, d).pending == []
    ensures Loop(cfg, w, d).remaining == d.remaining
    ensures Loop(cfg, w, d).stop == Running <==>
              d.stop == Running
              && (d.remaining == [] || !Hear(cfg, w, d.policy, d.readings).DeadlineExceeded(w.clock(d.readings)))
    ensures forall x :: !DrainsFrom(cfg, w, d, x)
  {
  }

  /** Since `s` the window took an outage, of a send that was in flight then. */
  ghost predicate TookOutage(w: World, s: Window, r: Window) {
    && r.Valid()
    && exists i :: |s.settled| <= i < |r.settled| && IsOutage(w, s.pending, r.settled[i], r.fates[i])
  }

  ghost predicate IsOutage(w: World, pending: seq<Row>, m: Row, f: Fate) {
    m in pending && f == Deferred && w.attempt(m.id).BrokerDown?
  }

  /** What such a drain looks like: it took at least two sends, one of them met an outage, and
      unless the loop was stopped none of its outages opened the breaker. */
  lemma WaitMeansOutage(cfg: Config, w: World, x: Window)
    requires x.Valid() && x.pending != [] && Drain(cfg, w, x).wait
    ensures |x.pending| >= 2
    ensures TookOutage(w, x, Drain(cfg, w, x))
    ensures Drain(cfg, w, x).stop == Running && !x.breakerExc ==> !Drain(cfg, w, x).breakerExc
  {
    var s0, i := x.(wait := false, drains := x.drains + 1), w.first(x.drains) % |x.pending|;
    FirstThenRest(cfg, w, s0, i, x.drains);
  }

  lemma FirstThenRest(cfg: Config, w: World, s: Window, i: nat, drain: nat)
    requires s.Valid() && i < |s.pending| && !s.wait
    ensures var r := DrainRest(cfg, w, Consume(cfg, w, s, i), drain, 0);
            && (r.wait ==> |s.pending| >= 2 && TookOutage(w, s, r))
            && (r.stop == Running && !s.breakerExc ==> !r.breakerExc)
  {
    var t := Consume(cfg, w, s, i);
    ConsumeWaits(cfg, w, s, i);
    RestWaits(cfg, w, t, drain, 0);
    TookLater(w, s, t, DrainRest(cfg, w, t, drain, 0));
  }

  /** What one completion adds. */
  lemma ConsumeWaits(cfg: Config, w: World, s: Window, i: nat)
    requires s.Valid() && i < |s.pending|
    ensures var r := Consume(cfg, w, s, i);
            && r.Valid() && s.settled <= r.settled && s.fates <= r.fates
            && (forall m :: m in r.pending ==> m in s.pending)
            && (r.wait && !s.wait ==> |s.pending| >= 2 && TookOutage(w, s, r))
            && (s.wait ==> r.wait)
            && (r.stop == Running && !s.breakerExc ==> !r.breakerExc)
            && (r.stop == Running ==> s.stop == Running)
  {
    var r := Consume(cfg, w, s, i);
    if r.wait && !s.wait {
      assert IsOutage(w, s.pending, r.settled[|s.settled|], r.fates[|s.settled|]);
    }
  }

  /** What is taken later was taken since. */
  lemma TookLater(w: World, s: Window, t: Window, r: Window)
    requires s.Valid() && t.Valid() && r.Valid() && t.settled <= r.settled && t.fates <= r.fates
    requires s.settled <= t.settled && forall m :: m in t.pending ==> m in s.pending
    ensures TookOutage(w, s, t) ==> TookOutage(w, s, r)
    ensures TookOutage(w, t, r) ==> TookOutage(w, s, r)
  {
    if TookOutage(w, s, t) {
      var i :| |s.settled| <= i < |t.settled| && IsOutage(w, s.pending, t.settled[i], t.fates[i]);
      assert IsOutage(w, s.pending, r.settled[i], r.fates[i]);
    }
    if TookOutage(w, t, r) {
      var i :| |t.settled| <= i < |r.settled| && IsOutage(w, t.pending, r.settled[i], r.fates[i]);
      assert IsOutage(w, s.pending, r.settled[i], r.fates[i]);
    }
  }

  lemma {:induction false} RestWaits(cfg: Config, w: World, s: Window, drain: nat, i: nat)
    requires s.Valid() && i <= |s.pending|
    ensures var r := DrainRest(cfg, w, s, drain, i);
            && r.Valid() && s.settled <= r.settled && s.fates <= r.fates
            && (r.wait && !s.wait ==> |s.pending| >= 2 && TookOutage(w, s, r))
            && (r.stop == Running && !s.breakerExc ==> !r.breakerExc)
            && (r.stop == Running ==> s.stop == Running)
    decreases |s.pending| - i
  {
    if i == |s.pending| {
    } else if w.done(drain, s.pending[i].id) {
      var t := Consume(cfg, w, s, i);
      ConsumeWaits(cfg, w, s, i);
      RestWaits(cfg, w, t, drain, i);
      TookLater(w, s, t, DrainRest(cfg, w, t, drain, i));
    } else {
      RestWaits(cfg, w, s, drain, i + 1);
    }
  }
}
