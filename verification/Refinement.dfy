/** The parallel loop against the serial one. */
module Refinement {
  import opened Types
  import opened Policy
  import opened Engine
  import opened Serial
  import opened Parallel

  // ---- Any window, any completion order, when nothing interrupts the batch -----------------

  /** A batch that no outage and no shutdown interrupts. */
  ghost predicate Undisturbed(w: World, ms: seq<Row>, p: PolicyState) {
    NoShutdown(w, p) && forall m :: m in ms ==> !w.attempt(m.id).BrokerDown?
  }

  function CalmFate(cfg: Config, w: World, m: Row): Fate {
    if m.retries >= cfg.maxRetries then PreExceeded
    else if w.attempt(m.id).Accepted? then Published
    else RefusedFate(cfg, m)
  }

  function CalmFates(cfg: Config, w: World, ms: seq<Row>): (fates: seq<Fate>)
    ensures |fates| == |ms|
    ensures forall i :: 0 <= i < |ms| ==> fates[i] == CalmFate(cfg, w, ms[i])
  {
    seq(|ms|, i requires 0 <= i < |ms| => CalmFate(cfg, w, ms[i]))
  }

  lemma {:induction false} SerialCalm(cfg: Config, w: World, ms: seq<Row>, p: PolicyState, n: nat)
    requires Undisturbed(w, ms, p)
    ensures Fates(cfg, w, ms, p, n).fates == CalmFates(cfg, w, ms)
    decreases |ms|
  {
    if ms != [] {
      var q := if ms[0].retries < cfg.maxRetries && w.attempt(ms[0].id).Accepted? then p.Succeeded() else p;
      SerialCalm(cfg, w, ms[1..], q, n + 1);
      assert CalmFates(cfg, w, ms) == [CalmFate(cfg, w, ms[0])] + CalmFates(cfg, w, ms[1..]);
    }
  }

  ghost predicate Calm(cfg: Config, w: World, s: Window) {
    && s.stop == Running && !s.wait && s.policy.shutdownDeadline.None?
    && s.Valid()
    && (forall m :: m in s.pending || m in s.remaining ==> !w.attempt(m.id).BrokerDown?)
    && (forall i :: 0 <= i < |s.pending| ==> s.pending[i].retries < cfg.maxRetries)
    && (forall i :: 0 <= i < |s.fates| ==> s.fates[i] == CalmFate(cfg, w, s.settled[i]))
  }

  lemma {:induction false} FillCalm(cfg: Config, w: World, s: Window)
    requires (forall n :: w.signals(n) == []) && Calm(cfg, w, s)
    ensures Calm(cfg, w, Fill(cfg, w, s))
    decreases |s.remaining|, s.stop == Running
  {
    if MayFill(cfg, s) {
      FillOneCalm(cfg, w, s);
      FillCalm(cfg, w, FillOne(cfg, w, s));
    }
  }

  lemma FillOneCalm(cfg: Config, w: World, s: Window)
    requires (forall n :: w.signals(n) == []) && Calm(cfg, w, s) && MayFill(cfg, s)
    ensures Calm(cfg, w, FillOne(cfg, w, s))
  {
    assert s.remaining[0] in s.remaining;
  }

  lemma ConsumeCalm(cfg: Config, w: World, s: Window, i: nat)
    requires Calm(cfg, w, s) && i < |s.pending|
    ensures Calm(cfg, w, Consume(cfg, w, s, i))
  {
    var r := Consume(cfg, w, s, i);
    assert s.pending[i] in s.pending;
    forall j | 0 <= j < |r.pending| ensures r.pending[j] == s.pending[if j < i then j else j + 1] {}
  }

  lemma {:induction false} DrainRestCalm(cfg: Config, w: World, s: Window, drain: nat, i: nat)
    requires Calm(cfg, w, s) && i <= |s.pending|
    ensures Calm(cfg, w, DrainRest(cfg, w, s, drain, i))
    decreases |s.pending| - i
  {
    if i == |s.pending| {
    } else if w.done(drain, s.pending[i].id) {
      ConsumeCalm(cfg, w, s, i);
      DrainRestCalm(cfg, w, Consume(cfg, w, s, i), drain, i);
    } else {
      DrainRestCalm(cfg, w, s, drain, i + 1);
    }
  }

  lemma {:induction false} LoopCalm(cfg: Config, w: World, s: Window)
    requires (forall n :: w.signals(n) == []) && Calm(cfg, w, s)
    ensures Calm(cfg, w, Loop(cfg, w, s))
    decreases s.Measure()
  {
    if s.pending != [] || s.remaining != [] {
      var t := Refill(cfg, w, s);
      FillCalm(cfg, w, CheckDeadline(cfg, w, s));
      if t.pending != [] {
        var t0 := t.(wait := false, drains := t.drains + 1);
        var i := w.first(t.drains) % |t.pending|;
        ConsumeCalm(cfg, w, t0, i);
        DrainRestCalm(cfg, w, Consume(cfg, w, t0, i), t.drains, 0);
        LoopCalm(cfg, w, Drain(cfg, w, t));
      }
    }
  }

  /** Equal up to the order in which messages were finished. */
  ghost predicate SameLists(a: Lists, b: Lists) {
    && multiset(a.published) == multiset(b.published)
    && multiset(a.failed) == multiset(b.failed)
    && multiset(a.exceeded) == multiset(b.exceeded)
    && multiset(a.deferred) == multiset(b.deferred)
    && multiset(a.aborted) == multiset(b.aborted)
  }

  function CalmListing(cfg: Config, w: World, ms: seq<Row>): Lists {
    Listing(ms, CalmFates(cfg, w, ms))
  }

  lemma CalmListingConcat(cfg: Config, w: World, a: seq<Row>, b: seq<Row>)
    ensures CalmListing(cfg, w, a + b) == Plus(CalmListing(cfg, w, a), CalmListing(cfg, w, b))
  {
    assert CalmFates(cfg, w, a + b) == CalmFates(cfg, w, a) + CalmFates(cfg, w, b);
    ListingConcat(a, CalmFates(cfg, w, a), b, CalmFates(cfg, w, b));
  }

  lemma CalmListingWithout(cfg: Config, w: World, b: seq<Row>, i: nat)
    requires i < |b|
    ensures SameLists(CalmListing(cfg, w, b),
                      Plus(CalmListing(cfg, w, [b[i]]), CalmListing(cfg, w, b[..i] + b[i + 1..])))
  {
    var x, y := b[..i], b[i + 1..];
    assert b == x + ([b[i]] + y);
    CalmListingConcat(cfg, w, x, [b[i]] + y);
    CalmListingConcat(cfg, w, [b[i]], y);
    CalmListingConcat(cfg, w, x, y);
    Swap(CalmListing(cfg, w, x), CalmListing(cfg, w, [b[i]]), CalmListing(cfg, w, y));
  }

  lemma SwapSeq<T>(x: seq<T>, one: seq<T>, y: seq<T>)
    ensures multiset(x + (one + y)) == multiset(one + (x + y))
  {
    assert x + (one + y) == x + one + y && one + (x + y) == one + x + y;
  }

  lemma Swap(x: Lists, one: Lists, y: Lists)
    ensures SameLists(Plus(x, Plus(one, y)), Plus(one, Plus(x, y)))
  {
    SwapSeq(x.published, one.published, y.published);
    SwapSeq(x.failed, one.failed, y.failed);
    SwapSeq(x.exceeded, one.exceeded, y.exceeded);
    SwapSeq(x.deferred, one.deferred, y.deferred);
    SwapSeq(x.aborted, one.aborted, y.aborted);
  }

  lemma SameListsPlus(one: Lists, a: Lists, b: Lists)
    requires SameLists(a, b)
    ensures SameLists(Plus(one, a), Plus(one, b))
  {
  }

  lemma {:induction false} PermutedCalmLists(cfg: Config, w: World, a: seq<Row>, b: seq<Row>)
    requires multiset(a) == multiset(b)
    ensures SameLists(CalmListing(cfg, w, a), CalmListing(cfg, w, b))
    decreases |a|
  {
    if a == [] {
      assert |multiset(a)| == 0;
    } else {
      assert a[0] in multiset(b);
      var i :| 0 <= i < |b| && b[i] == a[0];
      WithoutFirst(a, b, i);
      PermutedCalmLists(cfg, w, a[1..], b[..i] + b[i + 1..]);
      OneMorePermuted(cfg, w, a, b, i);
    }
  }

  lemma OneMorePermuted(cfg: Config, w: World, a: seq<Row>, b: seq<Row>, i: nat)
    requires a != [] && i < |b| && b[i] == a[0]
    requires SameLists(CalmListing(cfg, w, a[1..]), CalmListing(cfg, w, b[..i] + b[i + 1..]))
    ensures SameLists(CalmListing(cfg, w, a), CalmListing(cfg, w, b))
  {
    CalmListingWithout(cfg, w, b, i);
    assert a == [a[0]] + a[1..];
    CalmListingConcat(cfg, w, [a[0]], a[1..]);
    SameListsPlus(CalmListing(cfg, w, [a[0]]), CalmListing(cfg, w, a[1..]), CalmListing(cfg, w, b[..i] + b[i + 1..]));
  }

  lemma WithoutFirst(a: seq<Row>, b: seq<Row>, i: nat)
    requires a != [] && i < |b| && b[i] == a[0] && multiset(a) == multiset(b)
    ensures multiset(a[1..]) == multiset(b[..i] + b[i + 1..])
  {
    RemoveAt(b, i);
    RemoveAt(a, 0);
    assert a[..0] + a[1..] == a[1..];
    CancelOne(multiset(a[1..]), multiset(b[..i] + b[i + 1..]), multiset([a[0]]));
  }

  lemma AllSettled(ms: seq<Row>, settled: seq<Row>)
    requires Balanced(ms, settled, [], [])
    ensures multiset(settled) == multiset(ms)
  {
  }

  lemma CalmEnd(cfg: Config, w: World, ms: seq<Row>, r: Window)
    requires Calm(cfg, w, r) && Sound(cfg, w, ms, r) && r.pending == []
    requires r.stop == Running && r.remaining != [] ==> r.wait
    ensures r.remaining == [] && Finish(cfg, r) == r
    ensures multiset(r.settled) == multiset(ms)
    ensures r.fates == CalmFates(cfg, w, r.settled)
  {
    AllSettled(ms, r.settled);
  }

  lemma BeginCalm(cfg: Config, w: World, ms: seq<Row>, p: PolicyState, n: nat)
    requires Undisturbed(w, ms, p)
    ensures Calm(cfg, w, Begin(ms, p, n))
  {
  }

  lemma UndisturbedRun(cfg: Config, w: World, ms: seq<Row>, p: PolicyState, n: nat)
    requires cfg.Valid() && Undisturbed(w, ms, p)
    ensures var r := Run(cfg, w, ms, p, n);
            && r.stop == Running && r.remaining == []
            && multiset(r.settled) == multiset(ms)
            && r.fates == CalmFates(cfg, w, r.settled)
  {
    var s := Begin(ms, p, n);
    BeginSound(cfg, w, ms, p, n);
    BeginCalm(cfg, w, ms, p, n);
    LoopSound(cfg, w, ms, s);
    LoopEnds(cfg, w, ms, s);
    LoopCalm(cfg, w, s);
    CalmEnd(cfg, w, ms, Loop(cfg, w, s));
  }

  /** With no outage and no shutdown, any window and any completion order publish, fail and
      give up the same messages as the serial loop, and leave none unclassified. */
  lemma {:induction false} ParallelRefinesSerial(cfg: Config, w: World, ms: seq<Row>, p: PolicyState, n: nat, n': nat)
    requires cfg.Valid() && Undisturbed(w, ms, p)
    ensures var r := Run(cfg, w, ms, p, n);
            && r.Valid()
            && Tail(r) == []
            && SameLists(Listing(r.settled, r.fates), Listing(ms, Fates(cfg, w, ms, p, n').fates))
  {
    UndisturbedRun(cfg, w, ms, p, n);
    SerialCalm(cfg, w, ms, p, n');
    PermutedCalmLists(cfg, w, Run(cfg, w, ms, p, n).settled, ms);
  }

  // ---- A window of one, outages included ------------------------------------------------------

  /** Without a shutdown the clock decides nothing inside a batch. */
  lemma {:induction false} FatesIgnoreClock(cfg: Config, w: World, ms: seq<Row>, p: PolicyState, n: nat,
                                            p': PolicyState, n': nat)
    requires NoShutdown(w, p) && NoShutdown(w, p') && p.outageStreak == p'.outageStreak
    ensures Fates(cfg, w, ms, p, n).fates == Fates(cfg, w, ms, p', n').fates
    ensures Fates(cfg, w, ms, p, n).policy.outageStreak == Fates(cfg, w, ms, p', n').policy.outageStreak
    decreases |ms|
  {
    if ms != [] {
      var rest := ms[1..];
      FatesIgnoreClock(cfg, w, rest, p, n + 1, p', n' + 1);
      FatesIgnoreClock(cfg, w, rest, p.Succeeded(), n + 1, p'.Succeeded(), n' + 1);
      FatesIgnoreClock(cfg, w, rest, p.Failed(w.clock(n + 1), cfg.cooldown), n + 2,
                       p'.Failed(w.clock(n' + 1), cfg.cooldown), n' + 2);
    }
  }

  /** What the serial loop would make of the messages not yet settled. */
  ghost predicate Promises(cfg: Config, w: World, s: Window, rows: seq<Row>, fates: seq<Fate>, streak: nat) {
    && !s.wait && s.policy.shutdownDeadline.None? && s.Valid() && |s.pending| <= 1
    && Sendable(cfg, w, s.pending)
    && match s.stop
       case Running =>
         var todo := s.pending + s.remaining;
         var t := Fates(cfg, w, todo, s.policy, 0);
         rows == s.settled + todo && fates == s.fates + t.fates && streak == t.policy.outageStreak
       case ByBreaker =>
         && s.breakerExc && s.pending == []
         && rows == s.settled + s.remaining && fates == s.fates + BreakerFates(cfg, s.remaining)
         && streak == s.policy.outageStreak
       case ByShutdown => false
  }

  lemma FatesHead(cfg: Config, w: World, m: Row, rest: seq<Row>, p: PolicyState, n: nat)
    requires NoShutdown(w, p)
    ensures var t := Fates(cfg, w, [m] + rest, p, 0);
            var a := w.attempt(m.id);
            if m.retries >= cfg.maxRetries then
              var u := Fates(cfg, w, rest, p, n);
              t.fates == [PreExceeded] + u.fates && t.policy.outageStreak == u.policy.outageStreak
            else if a.Accepted? then
              var u := Fates(cfg, w, rest, p.Succeeded(), n);
              t.fates == [Published] + u.fates && t.policy.outageStreak == u.policy.outageStreak
            else if a.Refused? then
              var u := Fates(cfg, w, rest, p, n);
              t.fates == [RefusedFate(cfg, m)] + u.fates && t.policy.outageStreak == u.policy.outageStreak
            else if p.Trips() then
              t.fates == [Deferred] + BreakerFates(cfg, rest) && t.policy.outageStreak == p.outageStreak + 1
            else
              var u := Fates(cfg, w, rest, p.Failed(w.clock(n), cfg.cooldown), n);
              t.fates == [Deferred] + u.fates && t.policy.outageStreak == u.policy.outageStreak
  {
    assert ([m] + rest)[1..] == rest;
    FatesIgnoreClock(cfg, w, rest, p, 1, p, n);
    FatesIgnoreClock(cfg, w, rest, p.Succeeded(), 1, p.Succeeded(), n);
    FatesIgnoreClock(cfg, w, rest, p.Failed(w.clock(1), cfg.cooldown), 2, p.Failed(w.clock(n), cfg.cooldown), n);
  }

  /** Settling the next message as the serial loop would keeps the promise. */
  lemma SettleKeepsPromise(cfg: Config, w: World, s: Window, r: Window, m: Row, f: Fate,
                           rows: seq<Row>, fates: seq<Fate>, streak: nat)
    requires Promises(cfg, w, s, rows, fates, streak) && s.stop == Running
    requires s.pending + s.remaining == [m] + r.remaining && r.pending == []
    requires r.settled == s.settled + [m] && r.fates == s.fates + [f]
    requires !r.wait && r.policy.shutdownDeadline.None?
    requires var t := Fates(cfg, w, [m] + r.remaining, s.policy, 0);
             match r.stop
             case Running =>
               var u := Fates(cfg, w, r.remaining, r.policy, 0);
               t.fates == [f] + u.fates && t.policy.outageStreak == u.policy.outageStreak
             case ByBreaker =>
               r.breakerExc && t.fates == [f] + BreakerFates(cfg, r.remaining)
                   && t.policy.outageStreak == r.policy.outageStreak
             case ByShutdown => false
    ensures Promises(cfg, w, r, rows, fates, streak)
  {
    var t := Fates(cfg, w, [m] + r.remaining, s.policy, 0);
    assert r.pending + r.remaining == r.remaining;
    Associate(s.settled, m, r.remaining);
    Associate(s.fates, f, t.fates[1..]);
    assert t.fates == [f] + t.fates[1..];
  }

  lemma Associate<T>(a: seq<T>, x: T, b: seq<T>)
    ensures a + ([x] + b) == (a + [x]) + b
  {
  }

  lemma FillOneKeepsPromise(cfg: Config, w: World, s: Window, rows: seq<Row>, fates: seq<Fate>, streak: nat)
    requires (forall n :: w.signals(n) == []) && cfg.publishConcurrency == 1
    requires Promises(cfg, w, s, rows, fates, streak) && MayFill(cfg, s)
    ensures Promises(cfg, w, FillOne(cfg, w, s), rows, fates, streak)
  {
    var r, m, rest := FillOne(cfg, w, s), s.remaining[0], s.remaining[1..];
    var a := w.attempt(m.id);
    assert s.pending + s.remaining == [m] + rest;
    if m.retries < cfg.maxRetries && !FailsEarly(a) {
      assert r.pending + r.remaining == [m] + rest;
    } else {
      FillSettlesAsPromised(cfg, w, s, rows, fates, streak);
    }
  }

  lemma FillSettlesAsPromised(cfg: Config, w: World, s: Window, rows: seq<Row>, fates: seq<Fate>, streak: nat)
    requires (forall n :: w.signals(n) == []) && cfg.publishConcurrency == 1
    requires Promises(cfg, w, s, rows, fates, streak) && MayFill(cfg, s)
    requires s.remaining[0].retries >= cfg.maxRetries || FailsEarly(w.attempt(s.remaining[0].id))
    ensures Promises(cfg, w, FillOne(cfg, w, s), rows, fates, streak)
  {
    var m, rest, n := s.remaining[0], s.remaining[1..], s.readings + 1;
    var a := w.attempt(m.id);
    assert s.pending + s.remaining == [m] + rest;
    FatesHead(cfg, w, m, rest, s.policy, n);
    FatesIgnoreClock(cfg, w, rest, s.policy, n, s.policy, 0);
    FatesIgnoreClock(cfg, w, rest, s.policy.Failed(w.clock(n), cfg.cooldown), n,
                     s.policy.Failed(w.clock(n), cfg.cooldown), 0);
    var f := if m.retries >= cfg.maxRetries then PreExceeded
             else if a.BrokerDown? then Deferred
             else RefusedFate(cfg, m);
    SettleKeepsPromise(cfg, w, s, FillOne(cfg, w, s), m, f, rows, fates, streak);
  }

  lemma {:induction false} FillKeepsPromise(cfg: Config, w: World, s: Window, rows: seq<Row>, fates: seq<Fate>,
                                            streak: nat)
    requires (forall n :: w.signals(n) == []) && cfg.publishConcurrency == 1
    requires Promises(cfg, w, s, rows, fates, streak)
    ensures Promises(cfg, w, Fill(cfg, w, s), rows, fates, streak)
    decreases |s.remaining|, s.stop == Running
  {
    if MayFill(cfg, s) {
      FillOneKeepsPromise(cfg, w, s, rows, fates, streak);
      FillKeepsPromise(cfg, w, FillOne(cfg, w, s), rows, fates, streak);
    }
  }

  lemma DrainKeepsPromise(cfg: Config, w: World, s: Window, rows: seq<Row>, fates: seq<Fate>, streak: nat)
    requires (forall n :: w.signals(n) == []) && cfg.publishConcurrency == 1
    requires Promises(cfg, w, s, rows, fates, streak) && s.pending != []
    ensures Promises(cfg, w, Drain(cfg, w, s), rows, fates, streak)
  {
    var s0 := s.(wait := false, drains := s.drains + 1);
    assert w.first(s.drains) % 1 == 0;
    assert Drain(cfg, w, s) == Consume(cfg, w, s0, 0);
    ConsumeKeepsPromise(cfg, w, s0, rows, fates, streak);
  }

  lemma ConsumeKeepsPromise(cfg: Config, w: World, s: Window, rows: seq<Row>, fates: seq<Fate>, streak: nat)
    requires (forall n :: w.signals(n) == [])
    requires Promises(cfg, w, s, rows, fates, streak) && s.pending != []
    ensures Promises(cfg, w, Consume(cfg, w, s, 0), rows, fates, streak)
  {
    var m, rest, r, n := s.pending[0], s.remaining, Consume(cfg, w, s, 0), s.readings;
    var a := w.attempt(m.id);
    assert s.pending == [m] && r.pending == [];
    FatesHead(cfg, w, m, rest, s.policy, n);
    FatesIgnoreClock(cfg, w, rest, s.policy.Failed(w.clock(n), cfg.cooldown), n,
                     s.policy.Failed(w.clock(n), cfg.cooldown), 0);
    FatesIgnoreClock(cfg, w, rest, s.policy, n, s.policy, 0);
    FatesIgnoreClock(cfg, w, rest, s.policy.Succeeded(), n, s.policy.Succeeded(), 0);
    var f := if a.Accepted? then Published else if a.BrokerDown? then Deferred else RefusedFate(cfg, m);
    SettleKeepsPromise(cfg, w, s, r, m, f, rows, fates, streak);
  }

  lemma {:induction false} LoopKeepsPromise(cfg: Config, w: World, s: Window, rows: seq<Row>, fates: seq<Fate>,
                                            streak: nat)
    requires (forall n :: w.signals(n) == []) && cfg.publishConcurrency == 1
    requires Promises(cfg, w, s, rows, fates, streak)
    ensures Promises(cfg, w, Loop(cfg, w, s), rows, fates, streak)
    decreases s.Measure()
  {
    if s.pending != [] || s.remaining != [] {
      var t := CheckDeadline(cfg, w, s);
      assert Promises(cfg, w, t, rows, fates, streak);
      FillKeepsPromise(cfg, w, t, rows, fates, streak);
      if Refill(cfg, w, s).pending != [] {
        DrainKeepsPromise(cfg, w, Refill(cfg, w, s), rows, fates, streak);
        LoopKeepsPromise(cfg, w, Drain(cfg, w, Refill(cfg, w, s)), rows, fates, streak);
      }
    }
  }

  /** At a window of one the parallel loop, outages included, classifies the same messages
      into the same lists in the same order and leaves the same outage streak. */
  lemma WindowOfOneIsSerial(cfg: Config, w: World, ms: seq<Row>, p: PolicyState, n: nat, n': nat)
    requires cfg.Valid() && cfg.publishConcurrency == 1 && NoShutdown(w, p)
    ensures var r, t := Run(cfg, w, ms, p, n), Fates(cfg, w, ms, p, n');
            && r.Valid()
            && Listing(r.settled, r.fates) == Listing(ms, t.fates)
            && r.policy.outageStreak == t.policy.outageStreak
            && Tail(r) == []
  {
    var s, t := Begin(ms, p, n), Fates(cfg, w, ms, p, 0);
    FatesIgnoreClock(cfg, w, ms, p, 0, p, n');
    assert [] + ms == ms && [] + t.fates == t.fates;
    assert Promises(cfg, w, s, ms, t.fates, t.policy.outageStreak);
    LoopKeepsPromise(cfg, w, s, ms, t.fates, t.policy.outageStreak);
    BeginSound(cfg, w, ms, p, n);
    LoopSound(cfg, w, ms, s);
    LoopEnds(cfg, w, ms, s);
    PromiseKept(cfg, w, Loop(cfg, w, s), ms, t.fates, t.policy.outageStreak);
  }

  /** What a loop that has ended promises, it has done. */
  lemma {:induction false} PromiseKept(cfg: Config, w: World, r: Window, rows: seq<Row>, fates: seq<Fate>, streak: nat)
    requires Promises(cfg, w, r, rows, fates, streak) && r.pending == []
    requires r.stop == Running && r.remaining != [] ==> r.wait
    ensures var f := Finish(cfg, r);
            f.settled == rows && f.fates == fates && f.policy.outageStreak == streak && Tail(f) == []
  {
    if r.stop == Running {
      assert r.pending + r.remaining == [];
      assert r.settled + [] == r.settled && r.fates + [] == r.fates;
    }
  }

  /** The parallel loop comes to what the serial loop comes to. */
  ghost predicate SameAsSerial(cfg: Config, w: World, ms: seq<Row>, p: PolicyState, n: nat) {
    var r, t := Run(cfg, w, ms, p, n), Fates(cfg, w, ms, p, n);
    && r.Valid() && Tail(r) == []
    && Listing(r.settled, r.fates) == Listing(ms, t.fates)
    && r.policy.outageStreak == t.policy.outageStreak
  }

  ghost predicate Unsignalled(w: World) { forall n :: w.signals(n) == [] }

  /** The deadline `d` passes between the `n`-th reading and the next. */
  function PassesAfter(n: nat, d: real): World {
    World(k => if k <= n then d - 1.0 else d, _ => [], _ => Accepted, _ => 0, (_, _) => true)
  }

  lemma {:induction false} AbortedAtMost(ms: seq<Row>, fates: seq<Fate>)
    requires |ms| == |fates|
    ensures |Listing(ms, fates).aborted| <= |ms|
    decreases |ms|
  {
    if ms != [] { AbortedAtMost(ms[1..], fates[1..]); }
  }

  /** The serial loop still takes its first message. */
  lemma {:induction false} SerialTakesOne(cfg: Config, ms: seq<Row>, p: PolicyState, n: nat, d: real)
    requires ms != [] && p.shutdownDeadline == Some(d)
    ensures |Listing(ms, Fates(cfg, PassesAfter(n, d), ms, p, n).fates).aborted| < |ms|
  {
    var w := PassesAfter(n, d);
    var t := Fates(cfg, w, ms, p, n);
    assert Hear(cfg, w, p, n) == p;
    FatesStep(cfg, w, ms, p, n);
    assert t.fates[0] != Aborted;
    AbortedAtMost(ms[1..], t.fates[1..]);
  }

  /** The parallel loop reads the clock once more before its first send. */
  lemma {:induction false} ParallelTakesNone(cfg: Config, ms: seq<Row>, p: PolicyState, n: nat, d: real)
    requires cfg.Valid() && ms != [] && p.shutdownDeadline == Some(d)
    ensures var r := Run(cfg, PassesAfter(n, d), ms, p, n); r.Valid() && Listing(r.settled, r.fates).aborted == ms
  {
    var w := PassesAfter(n, d);
    var s := Begin(ms, p, n);
    var c := CheckDeadline(cfg, w, s);
    assert Hear(cfg, w, p, n) == p && Hear(cfg, w, p, n + 1) == p;
    assert c == s.(readings := n + 1, events := []);
    assert FillOne(cfg, w, c) == c.(readings := n + 2).CutOff();
    assert Fill(cfg, w, c) == FillOne(cfg, w, c);
    var r := Run(cfg, w, ms, p, n);
    assert r.settled == ms;
    AllAborted(ms, r.fates);
  }

  /** At a window of one the two loops come to the same in every world without a new signal
      if and only if no deadline is set yet (or there is nothing to do). */
  lemma {:induction false} SameAsSerialIff(cfg: Config, ms: seq<Row>, p: PolicyState, n: nat)
    requires cfg.Valid() && cfg.publishConcurrency == 1
    ensures (forall w: World :: Unsignalled(w) ==> SameAsSerial(cfg, w, ms, p, n))
            <==> p.shutdownDeadline.None? || ms == []
  {
    if p.shutdownDeadline.Some? && ms != [] {
      var d := p.shutdownDeadline.value;
      SerialTakesOne(cfg, ms, p, n, d);
      ParallelTakesNone(cfg, ms, p, n, d);
      assert Unsignalled(PassesAfter(n, d)) && !SameAsSerial(cfg, PassesAfter(n, d), ms, p, n);
    }
    if p.shutdownDeadline.None? || ms == [] {
      forall w: World | Unsignalled(w) ensures SameAsSerial(cfg, w, ms, p, n) {
        if ms == [] { EmptyBatch(cfg, w, p, n); } else { WindowOfOneIsSerial(cfg, w, ms, p, n, n); }
      }
    }
  }

  lemma EmptyBatch(cfg: Config, w: World, p: PolicyState, n: nat)
    ensures SameAsSerial(cfg, w, [], p, n)
  {
    assert Loop(cfg, w, Begin([], p, n)) == Begin([], p, n);
  }
}
