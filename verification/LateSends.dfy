/** No send is started once the shutdown deadline has passed: each message costs a clock reading
    before its attempt, and a reading past the deadline is the last that lets anything through. */
module LateSends {
  import opened Types
  import opened Policy
  import opened Engine
  import opened Serial
  import opened Parallel
  import opened Cycle

  /** No signal comes any more, the deadline of `p` is `d`, and from the `k`-th reading on the
      clock is past it. */
  ghost predicate PassedFrom(w: World, p: PolicyState, d: real, k: nat) {
    && (forall n :: w.signals(n) == [])
    && p.shutdownDeadline == Some(d)
    && (forall n :: n >= k ==> w.clock(n) >= d)
  }

  /** In a serial batch no message is attempted whose turn could only come past the deadline. */
  lemma {:induction false} SerialStopsInTime(cfg: Config, w: World, ms: seq<Row>, p: PolicyState, n: nat, d: real,
                                             k: nat)
    requires PassedFrom(w, p, d, k)
    ensures forall i :: 0 <= i < |ms| && n + i >= k ==> !WasTried(Fates(cfg, w, ms, p, n).fates[i])
    decreases |ms|
  {
    if ms != [] {
      FatesStep(cfg, w, ms, p, n);
      var m, t := ms[0], Fates(cfg, w, ms, p, n);
      assert Hear(cfg, w, p, n) == p && Hear(cfg, w, p, n + 1) == p;
      if p.DeadlineExceeded(w.clock(n)) {
      } else if m.retries >= cfg.maxRetries {
        SerialStopsInTime(cfg, w, ms[1..], p, n + 1, d, k);
        LaterUntried(n, k, [PreExceeded], Fates(cfg, w, ms[1..], p, n + 1).fates, n + 1);
      } else if PublishTrips(cfg, w, m, p, n + 1) {
        assert forall i :: 0 < i < |ms| ==> t.fates[i] == BreakerFates(cfg, ms[1..])[i - 1];
      } else {
        var p', n' := PublishPolicy(cfg, w, m, p, n + 1), PublishReadings(w, m, n + 1);
        SerialStopsInTime(cfg, w, ms[1..], p', n', d, k);
        LaterUntried(n, k, [PublishFate(cfg, w, m)], Fates(cfg, w, ms[1..], p', n').fates, n');
      }
    }
  }

  lemma LaterUntried(n: nat, k: nat, head: seq<Fate>, rest: seq<Fate>, n': nat)
    requires |head| == 1 && n < n' && n < k
    requires forall i :: 0 <= i < |rest| && n' + i >= k ==> !WasTried(rest[i])
    ensures forall i :: 0 <= i < |head + rest| && n + i >= k ==> !WasTried((head + rest)[i])
  {
    forall i | 0 <= i < |head + rest| && n + i >= k ensures !WasTried((head + rest)[i]) {
      assert (head + rest)[i] == rest[i - 1];
    }
  }

  /** A window takes one message a reading at most, and none at a reading past the deadline. */
  ghost predicate TakesInTime(w: World, ms: seq<Row>, n: nat, d: real, k: nat, s: Window) {
    && PassedFrom(w, s.policy, d, k)
    && |s.remaining| <= |ms|
    && n + (|ms| - |s.remaining|) <= s.readings
    && (|s.remaining| < |ms| ==> n + (|ms| - |s.remaining|) <= k)
  }

  lemma CompleteInTime(cfg: Config, w: World, ms: seq<Row>, n: nat, d: real, k: nat, s: Window, m: Row)
    requires TakesInTime(w, ms, n, d, k, s)
    ensures TakesInTime(w, ms, n, d, k, Complete(cfg, w, s, m))
  {
    assert Hear(cfg, w, s.policy, s.readings) == s.policy;
  }

  lemma FillOneInTime(cfg: Config, w: World, ms: seq<Row>, n: nat, d: real, k: nat, s: Window)
    requires TakesInTime(w, ms, n, d, k, s) && MayFill(cfg, s)
    ensures TakesInTime(w, ms, n, d, k, FillOne(cfg, w, s))
  {
    assert Hear(cfg, w, s.policy, s.readings) == s.policy;
    assert Hear(cfg, w, s.policy, s.readings + 1) == s.policy;
  }

  lemma {:induction false} FillInTime(cfg: Config, w: World, ms: seq<Row>, n: nat, d: real, k: nat, s: Window)
    requires TakesInTime(w, ms, n, d, k, s)
    ensures TakesInTime(w, ms, n, d, k, Fill(cfg, w, s))
    decreases |s.remaining|, s.stop == Running
  {
    if MayFill(cfg, s) {
      FillOneInTime(cfg, w, ms, n, d, k, s);
      FillInTime(cfg, w, ms, n, d, k, FillOne(cfg, w, s));
    }
  }

  lemma {:induction false} DrainRestInTime(cfg: Config, w: World, ms: seq<Row>, n: nat, d: real, k: nat,
                                           s: Window, drain: nat, i: nat)
    requires TakesInTime(w, ms, n, d, k, s) && i <= |s.pending|
    ensures TakesInTime(w, ms, n, d, k, DrainRest(cfg, w, s, drain, i))
    decreases |s.pending| - i
  {
    if i == |s.pending| {
    } else if w.done(drain, s.pending[i].id) {
      CompleteInTime(cfg, w, ms, n, d, k, Landed(s, i), s.pending[i]);
      DrainRestInTime(cfg, w, ms, n, d, k, Consume(cfg, w, s, i), drain, i);
    } else {
      DrainRestInTime(cfg, w, ms, n, d, k, s, drain, i + 1);
    }
  }

  lemma DrainInTime(cfg: Config, w: World, ms: seq<Row>, n: nat, d: real, k: nat, t: Window)
    requires TakesInTime(w, ms, n, d, k, t) && t.pending != []
    ensures TakesInTime(w, ms, n, d, k, Drain(cfg, w, t))
  {
    var t0 := t.(wait := false, drains := t.drains + 1);
    var i := w.first(t.drains) % |t.pending|;
    CompleteInTime(cfg, w, ms, n, d, k, Landed(t0, i), t0.pending[i]);
    DrainRestInTime(cfg, w, ms, n, d, k, Consume(cfg, w, t0, i), t.drains, 0);
  }

  lemma {:induction false} LoopInTime(cfg: Config, w: World, ms: seq<Row>, n: nat, d: real, k: nat, s: Window)
    requires TakesInTime(w, ms, n, d, k, s)
    ensures TakesInTime(w, ms, n, d, k, Loop(cfg, w, s))
    decreases s.Measure()
  {
    if s.pending != [] || s.remaining != [] {
      assert Hear(cfg, w, s.policy, s.readings) == s.policy;
      var c, t := CheckDeadline(cfg, w, s), Refill(cfg, w, s);
      assert TakesInTime(w, ms, n, d, k, c);
      FillInTime(cfg, w, ms, n, d, k, c);
      if t.pending != [] {
        DrainInTime(cfg, w, ms, n, d, k, t);
        LoopInTime(cfg, w, ms, n, d, k, Drain(cfg, w, t));
      }
    }
  }

  /** What the window has not taken is not attempted. */
  lemma LeftUntried(cfg: Config, w: World, ms: seq<Row>, s: Window, i: nat)
    requires cfg.Valid() && Sound(cfg, w, ms, s) && s.pending == [] && UniqueIds(ms)
    requires |ms| - |s.remaining| <= i < |ms|
    ensures var r := Finish(cfg, s); r.Valid() && ms[i].id !in Attempts(w, r.settled, r.fates)
  {
    var r, m := Finish(cfg, s), ms[i];
    assert multiset(s.pending) == multiset{};
    SubsetOfUnique(s.settled, s.remaining, ms);
    assert s.remaining[i - (|ms| - |s.remaining|)] == m && m in s.remaining;
    forall j | 0 <= j < |r.settled| && WasTried(r.fates[j]) ensures r.settled[j].id != m.id {
      if j < |s.settled| {
        assert r.settled[j] in s.settled;
      }
    }
  }

  lemma {:induction false} ParallelStopsInTime(cfg: Config, w: World, ms: seq<Row>, p: PolicyState, n: nat, d: real,
                                               k: nat, i: nat)
    requires cfg.Valid() && UniqueIds(ms) && PassedFrom(w, p, d, k) && i < |ms| && n + i >= k
    ensures var r := Run(cfg, w, ms, p, n); r.Valid() && ms[i].id !in Attempts(w, r.settled, r.fates)
  {
    var s := Begin(ms, p, n);
    BeginSound(cfg, w, ms, p, n);
    LoopSound(cfg, w, ms, s);
    LoopEnds(cfg, w, ms, s);
    LoopInTime(cfg, w, ms, n, d, k, s);
    LeftUntried(cfg, w, ms, Loop(cfg, w, s), i);
  }

  lemma {:induction false} SerialUntried(cfg: Config, w: World, ms: seq<Row>, fates: seq<Fate>, i: nat)
    requires |fates| == |ms| && UniqueIds(ms) && i < |ms| && !WasTried(fates[i])
    ensures ms[i].id !in Attempts(w, ms, fates)
  {
  }

  /** Whichever loop runs: if from the `k`-th clock reading on the deadline has passed and no
      signal moves it, a batch begun at the `n`-th reading attempts none of its messages from the
      `k - n`-th on, whatever happens to the others. */
  lemma {:induction false} NothingSentPastDeadline(cfg: Config, w: World, ms: seq<Row>, p: PolicyState, n: nat,
                                                   d: real, k: nat, i: nat)
    requires cfg.Valid() && UniqueIds(ms) && PassedFrom(w, p, d, k) && i < |ms| && n + i >= k
    ensures ms[i].id !in BatchOutcome(cfg, w, ms, p, n).attempts
  {
    if cfg.publishConcurrency == 1 {
      SerialStopsInTime(cfg, w, ms, p, n, d, k);
      SerialUntried(cfg, w, ms, Fates(cfg, w, ms, p, n).fates, i);
    } else {
      ParallelStopsInTime(cfg, w, ms, p, n, d, k, i);
    }
  }
}
