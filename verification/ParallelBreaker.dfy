/** The breaker inside a parallel batch: what still happens after it trips. */
module ParallelBreaker {
  import opened Types
  import opened Policy
  import opened Engine
  import opened Serial
  import opened Parallel

  /** Only sends that were in flight at the trip are consumed afterwards, and the tripping
      one is not among them. */
  ghost predicate FewLate(cfg: Config, s: Window) {
    && |s.pending| <= cfg.publishConcurrency
    && (s.breakerExc ==> s.stop != Running && s.late + |s.pending| < cfg.publishConcurrency)
    && (!s.breakerExc ==> s.late == 0)
  }

  lemma {:induction false} FillFewLate(cfg: Config, w: World, s: Window)
    requires FewLate(cfg, s)
    ensures FewLate(cfg, Fill(cfg, w, s))
    decreases |s.remaining|, s.stop == Running
  {
    if MayFill(cfg, s) { FillFewLate(cfg, w, FillOne(cfg, w, s)); }
  }

  lemma {:induction false} DrainRestFewLate(cfg: Config, w: World, s: Window, drain: nat, i: nat)
    requires FewLate(cfg, s) && i <= |s.pending|
    ensures FewLate(cfg, DrainRest(cfg, w, s, drain, i))
    decreases |s.pending| - i
  {
    if i == |s.pending| {
    } else if w.done(drain, s.pending[i].id) {
      DrainRestFewLate(cfg, w, Consume(cfg, w, s, i), drain, i);
    } else {
      DrainRestFewLate(cfg, w, s, drain, i + 1);
    }
  }

  lemma DrainFewLate(cfg: Config, w: World, s: Window)
    requires FewLate(cfg, s) && s.pending != []
    ensures FewLate(cfg, Drain(cfg, w, s))
  {
    var s0 := s.(wait := false, drains := s.drains + 1);
    DrainRestFewLate(cfg, w, Consume(cfg, w, s0, w.first(s.drains) % |s.pending|), s.drains, 0);
  }

  lemma {:induction false} LoopFewLate(cfg: Config, w: World, s: Window)
    requires FewLate(cfg, s)
    ensures FewLate(cfg, Loop(cfg, w, s))
    decreases s.Measure()
  {
    if s.pending != [] || s.remaining != [] {
      assert FewLate(cfg, CheckDeadline(cfg, w, s));
      FillFewLate(cfg, w, CheckDeadline(cfg, w, s));
      if Refill(cfg, w, s).pending != [] {
        DrainFewLate(cfg, w, Refill(cfg, w, s));
        LoopFewLate(cfg, w, Drain(cfg, w, Refill(cfg, w, s)));
      }
    }
  }

  /** After the breaker trips, be it in a batch that a shutdown has stopped already, at most
      `publish_concurrency - 1` sends, all of them in flight by then, still complete. */
  lemma AtMostWindowMinusOneAfterTrip(cfg: Config, w: World, ms: seq<Row>, p: PolicyState, n: nat)
    requires cfg.Valid()
    ensures Run(cfg, w, ms, p, n).late < cfg.publishConcurrency
  {
    LoopFewLate(cfg, w, Begin(ms, p, n));
  }

  /** And nothing is submitted any more once any stop reason is set: every later message is
      only classified. */
  lemma {:induction false} NothingSubmittedAfterStop(cfg: Config, w: World, ms: seq<Row>, s: Window)
    requires cfg.Valid() && Sound(cfg, w, ms, s) && s.stop != Running
    ensures var r := Finish(cfg, Loop(cfg, w, s));
            && r.Valid() && r.stop == s.stop
            && |r.settled| == |s.settled| + |s.pending| + |s.remaining|
            && (forall i :: |s.settled| + |s.pending| <= i < |r.settled| ==> !WasTried(r.fates[i]))
  {
    var f := Loop(cfg, w, s);
    LoopEnds(cfg, w, ms, s);
    LoopSound(cfg, w, ms, s);
    SameSize(f.settled, f.pending, f.remaining, ms);
    SameSize(s.settled, s.pending, s.remaining, ms);
    OnlyClassified(cfg, f);
  }

  lemma OnlyClassified(cfg: Config, f: Window)
    requires f.Valid() && f.stop != Running && (f.stop == ByBreaker ==> f.breakerExc)
    ensures var r := Finish(cfg, f);
            && r.Valid() && r.stop == f.stop && |r.settled| == |f.settled| + |f.remaining|
            && forall i :: |f.settled| <= i < |r.settled| ==> !WasTried(r.fates[i])
  {
  }

  lemma SameSize(a: seq<Row>, b: seq<Row>, c: seq<Row>, ms: seq<Row>)
    requires Balanced(ms, a, b, c)
    ensures |a| + |b| + |c| == |ms|
  {
    assert |multiset(a) + multiset(b) + multiset(c)| == |multiset(ms)|;
  }

  // ---- The policy's view ------------------------------------------------------------------

  ghost predicate Told(cfg: Config, p: PolicyState, s: Window) {
    s.policy == After(cfg, p, s.events)
  }

  lemma ReadTold(cfg: Config, w: World, p: PolicyState, s: Window)
    requires Told(cfg, p, s)
    ensures Told(cfg, p, s.Read(cfg, w))
  {
    HearIsHistory(cfg, s.policy, w.signals(s.readings));
    AfterConcat(cfg, p, s.events, SignalEvents(w.signals(s.readings)));
  }

  lemma FailTold(cfg: Config, w: World, p: PolicyState, s: Window, m: Row, a: Attempt)
    requires Told(cfg, p, s)
    ensures Told(cfg, p, s.Fail(cfg, w, m, a))
  {
    ReadTold(cfg, w, p, s);
    AfterOne(cfg, p, s.Read(cfg, w).events, Event.Outage(w.clock(s.readings)));
  }

  lemma {:induction false} FillTold(cfg: Config, w: World, p: PolicyState, s: Window)
    requires Told(cfg, p, s)
    ensures Told(cfg, p, Fill(cfg, w, s))
    decreases |s.remaining|, s.stop == Running
  {
    if MayFill(cfg, s) {
      ReadTold(cfg, w, p, s);
      var m, u := s.remaining[0], s.Read(cfg, w).(remaining := s.remaining[1..]);
      FailTold(cfg, w, p, u, m, w.attempt(m.id));
      FillTold(cfg, w, p, FillOne(cfg, w, s));
    }
  }

  lemma ConsumeTold(cfg: Config, w: World, p: PolicyState, s: Window, i: nat)
    requires Told(cfg, p, s) && i < |s.pending|
    ensures Told(cfg, p, Consume(cfg, w, s, i))
  {
    CompleteTold(cfg, w, p, Landed(s, i), s.pending[i]);
  }

  lemma CompleteTold(cfg: Config, w: World, p: PolicyState, s: Window, m: Row)
    requires Told(cfg, p, s)
    ensures Told(cfg, p, Complete(cfg, w, s, m))
  {
    FailTold(cfg, w, p, s, m, w.attempt(m.id));
    AfterOne(cfg, p, s.events, Sent);
  }

  lemma {:induction false} DrainRestTold(cfg: Config, w: World, p: PolicyState, s: Window, drain: nat, i: nat)
    requires Told(cfg, p, s) && i <= |s.pending|
    ensures Told(cfg, p, DrainRest(cfg, w, s, drain, i))
    decreases |s.pending| - i
  {
    if i == |s.pending| {
    } else if w.done(drain, s.pending[i].id) {
      ConsumeTold(cfg, w, p, s, i);
      DrainRestTold(cfg, w, p, Consume(cfg, w, s, i), drain, i);
    } else {
      DrainRestTold(cfg, w, p, s, drain, i + 1);
    }
  }

  lemma {:induction false} LoopTold(cfg: Config, w: World, p: PolicyState, s: Window)
    requires Told(cfg, p, s)
    ensures Told(cfg, p, Loop(cfg, w, s))
    decreases s.Measure()
  {
    if s.pending != [] || s.remaining != [] {
      ReadTold(cfg, w, p, s);
      var t := Refill(cfg, w, s);
      FillTold(cfg, w, p, CheckDeadline(cfg, w, s));
      if t.pending != [] {
        var t0 := t.(wait := false, drains := t.drains + 1);
        var i := w.first(t.drains) % |t.pending|;
        ConsumeTold(cfg, w, p, t0, i);
        DrainRestTold(cfg, w, p, Consume(cfg, w, t0, i), t.drains, 0);
        LoopTold(cfg, w, p, Drain(cfg, w, t));
      }
    }
  }

  /** A parallel batch leaves the policy exactly where its own history of calls puts it, so
      what is proved about histories holds for it too. */
  lemma ParallelPolicyIsHistory(cfg: Config, w: World, ms: seq<Row>, p: PolicyState, n: nat)
    ensures var r := Run(cfg, w, ms, p, n); r.policy == After(cfg, p, r.events)
  {
    LoopTold(cfg, w, p, Begin(ms, p, n));
  }

  // ---- What counts as the trip ------------------------------------------------------------

  /** The `i`-th event of a batch that began with the policy `p` opened the breaker. */
  ghost predicate TripAt(cfg: Config, p: PolicyState, h: seq<Event>, i: int) {
    0 <= i < |h| && h[i].Outage? && After(cfg, p, h[..i]).Trips()
  }

  ghost predicate HasTrip(cfg: Config, p: PolicyState, h: seq<Event>) {
    exists i :: TripAt(cfg, p, h, i)
  }

  lemma HasTripThen(cfg: Config, p: PolicyState, h: seq<Event>, more: seq<Event>)
    requires forall i :: |h| <= i < |h + more| ==> !TripAt(cfg, p, h + more, i)
    ensures HasTrip(cfg, p, h + more) <==> HasTrip(cfg, p, h)
  {
    forall i | 0 <= i < |h| ensures TripAt(cfg, p, h + more, i) <==> TripAt(cfg, p, h, i) {
      assert (h + more)[..i] == h[..i];
    }
    if i :| TripAt(cfg, p, h + more, i) {
      assert i < |h| && TripAt(cfg, p, h, i);
    }
    if i :| TripAt(cfg, p, h, i) {
      assert TripAt(cfg, p, h + more, i);
    }
  }

  lemma HasTripOne(cfg: Config, p: PolicyState, h: seq<Event>, e: Event)
    ensures HasTrip(cfg, p, h + [e]) <==> HasTrip(cfg, p, h) || (e.Outage? && After(cfg, p, h).Trips())
  {
    assert (h + [e])[..|h|] == h;
    if e.Outage? && After(cfg, p, h).Trips() {
      assert TripAt(cfg, p, h + [e], |h|);
    } else {
      HasTripThen(cfg, p, h, [e]);
    }
  }

  /** The window's exception records the trips of its history. */
  ghost predicate TripsTold(cfg: Config, p: PolicyState, s: Window) {
    Told(cfg, p, s) && (s.breakerExc <==> HasTrip(cfg, p, s.events))
  }

  lemma ReadTrips(cfg: Config, w: World, p: PolicyState, s: Window)
    requires TripsTold(cfg, p, s)
    ensures TripsTold(cfg, p, s.Read(cfg, w))
    ensures s.Read(cfg, w).policy.Trips() <==> s.policy.Trips()
  {
    ReadTold(cfg, w, p, s);
    HasTripThen(cfg, p, s.events, SignalEvents(w.signals(s.readings)));
    HearKeepsBreaker(cfg, s.policy, w.signals(s.readings));
  }

  lemma FailTrips(cfg: Config, w: World, p: PolicyState, s: Window, m: Row, a: Attempt)
    requires TripsTold(cfg, p, s)
    ensures var r := s.Fail(cfg, w, m, a);
            && Told(cfg, p, r) && r.breakerExc == s.breakerExc
            && (HasTrip(cfg, p, r.events) <==> s.breakerExc || (a.BrokerDown? && s.policy.Trips()))
  {
    FailTold(cfg, w, p, s, m, a);
    ReadTrips(cfg, w, p, s);
    if a.BrokerDown? { HasTripOne(cfg, p, s.Read(cfg, w).events, Event.Outage(w.clock(s.readings))); }
  }

  lemma FillOneTrips(cfg: Config, w: World, p: PolicyState, s: Window)
    requires TripsTold(cfg, p, s) && MayFill(cfg, s)
    ensures TripsTold(cfg, p, FillOne(cfg, w, s))
  {
    ReadTrips(cfg, w, p, s);
    var t := s.Read(cfg, w);
    if !t.policy.DeadlineExceeded(w.clock(s.readings)) { TakeOneTrips(cfg, w, p, t); }
  }

  lemma TakeOneTrips(cfg: Config, w: World, p: PolicyState, s: Window)
    requires TripsTold(cfg, p, s) && s.remaining != []
    ensures TripsTold(cfg, p, TakeOne(cfg, w, s))
  {
    var m, u := s.remaining[0], s.(remaining := s.remaining[1..]);
    assert TripsTold(cfg, p, u);
    FailTrips(cfg, w, p, u, m, w.attempt(m.id));
  }

  lemma ConsumeTrips(cfg: Config, w: World, p: PolicyState, s: Window, i: nat)
    requires TripsTold(cfg, p, s) && i < |s.pending|
    ensures TripsTold(cfg, p, Consume(cfg, w, s, i))
  {
    var m, t := s.pending[i], Landed(s, i);
    assert TripsTold(cfg, p, t);
    ConsumeTold(cfg, w, p, s, i);
    FailTrips(cfg, w, p, t, m, w.attempt(m.id));
    HasTripOne(cfg, p, t.events, Sent);
  }

  lemma {:induction false} FillTrips(cfg: Config, w: World, p: PolicyState, s: Window)
    requires TripsTold(cfg, p, s)
    ensures TripsTold(cfg, p, Fill(cfg, w, s))
    decreases |s.remaining|, s.stop == Running
  {
    if MayFill(cfg, s) {
      FillOneTrips(cfg, w, p, s);
      FillTrips(cfg, w, p, FillOne(cfg, w, s));
    }
  }

  lemma {:induction false} DrainRestTrips(cfg: Config, w: World, p: PolicyState, s: Window, drain: nat, i: nat)
    requires TripsTold(cfg, p, s) && i <= |s.pending|
    ensures TripsTold(cfg, p, DrainRest(cfg, w, s, drain, i))
    decreases |s.pending| - i
  {
    if i == |s.pending| {
    } else if w.done(drain, s.pending[i].id) {
      ConsumeTrips(cfg, w, p, s, i);
      DrainRestTrips(cfg, w, p, Consume(cfg, w, s, i), drain, i);
    } else {
      DrainRestTrips(cfg, w, p, s, drain, i + 1);
    }
  }

  lemma DrainTrips(cfg: Config, w: World, p: PolicyState, t: Window)
    requires TripsTold(cfg, p, t) && t.pending != []
    ensures TripsTold(cfg, p, Drain(cfg, w, t))
  {
    var t0 := t.(wait := false, drains := t.drains + 1);
    var i := w.first(t.drains) % |t.pending|;
    assert TripsTold(cfg, p, t0);
    ConsumeTrips(cfg, w, p, t0, i);
    DrainRestTrips(cfg, w, p, Consume(cfg, w, t0, i), t.drains, 0);
  }

  lemma {:induction false} LoopTrips(cfg: Config, w: World, p: PolicyState, s: Window)
    requires TripsTold(cfg, p, s)
    ensures TripsTold(cfg, p, Loop(cfg, w, s))
    decreases s.Measure()
  {
    if s.pending != [] || s.remaining != [] {
      ReadTrips(cfg, w, p, s);
      var t := Refill(cfg, w, s);
      assert TripsTold(cfg, p, CheckDeadline(cfg, w, s));
      FillTrips(cfg, w, p, CheckDeadline(cfg, w, s));
      if t.pending != [] {
        DrainTrips(cfg, w, p, t);
        LoopTrips(cfg, w, p, Drain(cfg, w, t));
      }
    }
  }

  /** The exception a batch ends with, from which `late` counts, is there exactly when an
      outage of the batch found the streak running, whatever had stopped the loop by then. */
  lemma TripsAreCounted(cfg: Config, w: World, ms: seq<Row>, p: PolicyState, n: nat)
    ensures var r := Run(cfg, w, ms, p, n); r.breakerExc <==> HasTrip(cfg, p, r.events)
  {
    var s := Begin(ms, p, n);
    assert !HasTrip(cfg, p, s.events);
    LoopTrips(cfg, w, p, s);
  }
}
