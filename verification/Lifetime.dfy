/** What a relay's whole life guarantees, batch after batch: when it works, and how its
    outages are spaced. */
module Lifetime {
  import opened Types
  import opened Policy
  import opened Engine
  import opened Serial
  import opened ParallelBreaker
  import opened Cycle
  import Selector

  // ---- Lives, turn after turn --------------------------------------------------------------

  lemma {:induction false} FirstTurn(cfg: Config, e: Turn, rest: seq<Turn>, s: Life)
    requires cfg.Valid()
    ensures var (here, goes) := Guarded(cfg, e, s);
            Lived(cfg, [e] + rest, s) == if goes then Lived(cfg, rest, Processed(cfg, e, here)) else here
  {
    assert ([e] + rest)[1..] == rest;
  }

  /** Every guard of the script lets the relay go on. */
  ghost predicate Alive(cfg: Config, script: seq<Turn>, s: Life)
    requires cfg.Valid()
    decreases |script|
  {
    script == []
    || (var (here, goes) := Guarded(cfg, script[0], s);
        goes && Alive(cfg, script[1..], Processed(cfg, script[0], here)))
  }

  lemma {:induction false} FirstAlive(cfg: Config, e: Turn, rest: seq<Turn>, s: Life)
    requires cfg.Valid()
    ensures Alive(cfg, [e] + rest, s)
            <==> Guarded(cfg, e, s).1 && Alive(cfg, rest, Processed(cfg, e, Guarded(cfg, e, s).0))
  {
    assert ([e] + rest)[1..] == rest;
  }

  lemma {:induction false} LivedAppend(cfg: Config, script: seq<Turn>, more: seq<Turn>, s: Life)
    requires cfg.Valid() && Alive(cfg, script, s)
    ensures Lived(cfg, script + more, s) == Lived(cfg, more, Lived(cfg, script, s))
    ensures Alive(cfg, script + more, s) <==> Alive(cfg, more, Lived(cfg, script, s))
    decreases |script|
  {
    if script == [] {
      assert script + more == more;
    } else {
      assert script == [script[0]] + script[1..] && script + more == [script[0]] + (script[1..] + more);
      FirstTurn(cfg, script[0], script[1..], s);
      FirstTurn(cfg, script[0], script[1..] + more, s);
      FirstAlive(cfg, script[0], script[1..], s);
      FirstAlive(cfg, script[0], script[1..] + more, s);
      LivedAppend(cfg, script[1..], more, Processed(cfg, script[0], Guarded(cfg, script[0], s).0));
    }
  }

  lemma {:induction false} OneTurn(cfg: Config, e: Turn, s: Life)
    requires cfg.Valid() && Guarded(cfg, e, s).1
    ensures Alive(cfg, [e], s) && Lived(cfg, [e], s) == Processed(cfg, e, Guarded(cfg, e, s).0)
  {
    FirstTurn(cfg, e, [], s);
    assert [e] + [] == [e] && [e][1..] == [];
  }

  // ---- The policy of a life is its history ------------------------------------------------

  ghost predicate Remembers(cfg: Config, s: Life) {
    s.policy == After(cfg, FRESH, s.events)
  }

  lemma ReadRemembers(cfg: Config, w: World, s: Life)
    requires Remembers(cfg, s)
    ensures Remembers(cfg, s.Read(cfg, w))
  {
    HearIsHistory(cfg, s.policy, w.signals(s.readings));
    AfterConcat(cfg, FRESH, s.events, SignalEvents(w.signals(s.readings)));
  }

  lemma OutcomeIsHistory(cfg: Config, w: World, ms: seq<Row>, p: PolicyState, n: nat)
    requires cfg.Valid()
    ensures var o := BatchOutcome(cfg, w, ms, p, n); o.policy == After(cfg, p, o.events)
  {
    SerialPolicyIsHistory(cfg, w, ms, p, n);
    ParallelPolicyIsHistory(cfg, w, ms, p, n);
  }

  lemma GatedRemembers(cfg: Config, e: Turn, s: Life)
    requires Remembers(cfg, s)
    ensures Remembers(cfg, s.Read(cfg, e.world)) && Remembers(cfg, Gated(cfg, e, s))
  {
    ReadRemembers(cfg, e.world, s);
    AfterOne(cfg, FRESH, s.Read(cfg, e.world).events, Gate(e.world.clock(s.readings)));
  }

  lemma ProcessedRemembers(cfg: Config, e: Turn, s: Life)
    requires cfg.Valid() && Remembers(cfg, s)
    ensures Remembers(cfg, Processed(cfg, e, s))
  {
    var gated := Gated(cfg, e, s);
    GatedRemembers(cfg, e, s);
    OutcomeIsHistory(cfg, e.world, BatchOf(cfg, e, s), gated.policy, gated.readings);
    AfterConcat(cfg, FRESH, gated.events, TurnOutcome(cfg, e, s).events);
  }

  /** A relay's policy is at every moment what its own history of calls makes it. */
  lemma {:induction false} LifeRemembers(cfg: Config, script: seq<Turn>, s: Life)
    requires cfg.Valid() && Remembers(cfg, s)
    ensures Remembers(cfg, Lived(cfg, script, s))
    decreases |script|
  {
    if script != [] {
      var (here, goes) := Guarded(cfg, script[0], s);
      ReadRemembers(cfg, script[0].world, s.(tables := here.tables));
      if goes {
        ProcessedRemembers(cfg, script[0], here);
        LifeRemembers(cfg, script[1..], Processed(cfg, script[0], here));
      }
    }
  }

  /** In any life, however many batches came before and however they went, the next turn, its
      guard passed, works on no batch exactly while some breaker trip is less than a cooldown
      old. */
  lemma {:induction false} NoBatchWhileCooling(cfg: Config, script: seq<Turn>, t: Tables, e: Turn, from: real)
    requires cfg.Valid() && e.fault != ClaimFails
    requires var here := Guarded(cfg, e, Lived(cfg, script, Born(t))).0;
             var told := here.Read(cfg, e.world).events;
             Chronological(told, from) && Latest(told, from) <= e.world.clock(here.readings)
    ensures var here := Guarded(cfg, e, Lived(cfg, script, Born(t))).0;
            Processed(cfg, e, here).batches == here.batches
            <==> Cooling(cfg, here.Read(cfg, e.world).events, e.world.clock(here.readings))
  {
    var s := Lived(cfg, script, Born(t));
    assert Remembers(cfg, Born(t));
    LifeRemembers(cfg, script, Born(t));
    GuardRemembers(cfg, e, s);
    var here := Guarded(cfg, e, s).0;
    ReadRemembers(cfg, e.world, here);
    GateSkipsExactlyWhileCooling(cfg, here.Read(cfg, e.world).events, from, e.world.clock(here.readings));
    BatchesGrow(cfg, e, here);
  }

  lemma GuardRemembers(cfg: Config, e: Turn, s: Life)
    requires Remembers(cfg, s)
    ensures Remembers(cfg, Guarded(cfg, e, s).0)
  {
    ReadRemembers(cfg, e.world, s.(tables := e.before(s.tables)));
  }

  lemma BatchesGrow(cfg: Config, e: Turn, s: Life)
    requires cfg.Valid()
    ensures |Processed(cfg, e, s).batches| == |s.batches| + if Works(cfg, e, s) then 1 else 0
    ensures !Works(cfg, e, s) ==> Processed(cfg, e, s).batches == s.batches
  {
  }

  /** After a shutdown request the main loop goes on exactly while the last signal is less than
      a shutdown timeout old and some row in the outbox may be claimed; before one it goes on. */
  lemma {:induction false} DrainsIff(cfg: Config, e: Turn, s: Life)
    requires Remembers(cfg, s)
    ensures var t, heard := e.before(s.tables), s.Read(cfg, e.world).events;
            Guarded(cfg, e, s).1 <==>
              || (forall i :: 0 <= i < |s.events| ==> !s.events[i].Signal?)
              || (&& !DeadlinePassed(cfg, FRESH, heard, e.world.clock(s.readings))
                  && exists id :: id in t.outbox && Selector.Eligible(t.outbox[id], e.checkAt, cfg.staleTimeout))
  {
    var t := e.before(s.tables);
    ReadRemembers(cfg, e.world, s.(tables := t));
    DeadlineIsLastSignal(cfg, FRESH, s.events, 0.0);
    DeadlineIsLastSignal(cfg, FRESH, s.Read(cfg, e.world).events, e.world.clock(s.readings));
    assert Backlog(t, e.checkAt, cfg.staleTimeout)
      <==> exists id :: id in t.outbox && Selector.Eligible(t.outbox[id], e.checkAt, cfg.staleTimeout);
  }

  // ---- Serial lives --------------------------------------------------------------------------

  /** From `p` on, every send of `h` starts with the breaker closed. */
  ghost predicate ClosedFrom(cfg: Config, p: PolicyState, h: seq<Event>) {
    forall i :: 0 <= i < |h| && (h[i].Outage? || h[i].Sent?) ==> After(cfg, p, h[..i]).breakerOpenUntil.None?
  }

  lemma ClosedConcat(cfg: Config, p: PolicyState, a: seq<Event>, b: seq<Event>)
    requires ClosedFrom(cfg, p, a) && ClosedFrom(cfg, After(cfg, p, a), b)
    ensures ClosedFrom(cfg, p, a + b)
  {
    var h := a + b;
    forall i | 0 <= i < |h| && (h[i].Outage? || h[i].Sent?) ensures After(cfg, p, h[..i]).breakerOpenUntil.None? {
      if i < |a| {
        assert h[..i] == a[..i];
      } else {
        assert h[..i] == a + b[..i - |a|];
        AfterConcat(cfg, p, a, b[..i - |a|]);
        assert h[i] == b[i - |a|];
      }
    }
  }

  lemma SignalsAreClosed(cfg: Config, p: PolicyState, at: seq<real>)
    ensures ClosedFrom(cfg, p, SignalEvents(at))
  {
  }

  lemma OneSendIsClosed(cfg: Config, p: PolicyState, e: Event)
    requires p.breakerOpenUntil.None? || !(e.Outage? || e.Sent?)
    ensures ClosedFrom(cfg, p, [e])
  {
    assert [e][..0] == [];
  }

  /** Signals, then one send with the breaker closed. */
  lemma HeardThenSent(cfg: Config, p: PolicyState, at: seq<real>, e: Event)
    requires p.breakerOpenUntil.None?
    ensures ClosedFrom(cfg, p, SignalEvents(at) + [e])
  {
    HearIsHistory(cfg, p, at);
    HearKeepsBreaker(cfg, p, at);
    SignalsAreClosed(cfg, p, at);
    OneSendIsClosed(cfg, HearAll(cfg, p, at), e);
    ClosedConcat(cfg, p, SignalEvents(at), [e]);
  }

  lemma HeardHeardSent(cfg: Config, p: PolicyState, at1: seq<real>, at2: seq<real>, e: Event)
    requires p.breakerOpenUntil.None?
    ensures ClosedFrom(cfg, p, SignalEvents(at1) + SignalEvents(at2) + [e])
    ensures After(cfg, p, SignalEvents(at1) + SignalEvents(at2) + [e])
            == Apply(cfg, HearAll(cfg, HearAll(cfg, p, at1), at2), e)
  {
    var a, b := SignalEvents(at1), SignalEvents(at2) + [e];
    HearIsHistory(cfg, p, at1);
    HearKeepsBreaker(cfg, p, at1);
    var q := HearAll(cfg, p, at1);
    HearIsHistory(cfg, q, at2);
    HeardThenSent(cfg, q, at2, e);
    SignalsAreClosed(cfg, p, at1);
    ClosedConcat(cfg, p, a, b);
    AfterConcat(cfg, p, a, b);
    AfterOne(cfg, q, SignalEvents(at2), e);
    assert a + b == SignalEvents(at1) + SignalEvents(at2) + [e];
  }

  /** A serial batch that starts with the breaker closed sends only while it is closed. */
  lemma {:induction false} SerialBatchIsClosed(cfg: Config, w: World, ms: seq<Row>, p: PolicyState, n: nat)
    requires p.breakerOpenUntil.None?
    ensures ClosedFrom(cfg, p, Fates(cfg, w, ms, p, n).events)
    decreases |ms|
  {
    if ms != [] {
      var at, m, rest := w.signals(n), ms[0], ms[1..];
      var q := Hear(cfg, w, p, n);
      HearIsHistory(cfg, p, at);
      HearKeepsBreaker(cfg, p, at);
      SignalsAreClosed(cfg, p, at);
      if q.DeadlineExceeded(w.clock(n)) {
      } else if m.retries < cfg.maxRetries && w.attempt(m.id).Accepted? {
        HeardThenSent(cfg, p, at, Sent);
        AfterOne(cfg, p, SignalEvents(at), Sent);
        SerialBatchIsClosed(cfg, w, rest, q.Succeeded(), n + 1);
        ClosedConcat(cfg, p, SignalEvents(at) + [Sent], Fates(cfg, w, rest, q.Succeeded(), n + 1).events);
      } else if m.retries < cfg.maxRetries && w.attempt(m.id).BrokerDown? {
        SerialOutageIsClosed(cfg, w, ms, p, n);
      } else {
        SerialBatchIsClosed(cfg, w, rest, q, n + 1);
        ClosedConcat(cfg, p, SignalEvents(at), Fates(cfg, w, rest, q, n + 1).events);
      }
    }
  }

  lemma {:induction false} SerialOutageIsClosed(cfg: Config, w: World, ms: seq<Row>, p: PolicyState, n: nat)
    requires p.breakerOpenUntil.None? && ms != []
    requires !Hear(cfg, w, p, n).DeadlineExceeded(w.clock(n))
    requires ms[0].retries < cfg.maxRetries && w.attempt(ms[0].id).BrokerDown?
    ensures ClosedFrom(cfg, p, Fates(cfg, w, ms, p, n).events)
    decreases |ms|, 0
  {
    var q := Hear(cfg, w, p, n);
    var r, e := Hear(cfg, w, q, n + 1), Event.Outage(w.clock(n + 1));
    var told := SignalEvents(w.signals(n)) + SignalEvents(w.signals(n + 1)) + [e];
    HeardHeardSent(cfg, p, w.signals(n), w.signals(n + 1), e);
    HearKeepsBreaker(cfg, p, w.signals(n));
    HearKeepsBreaker(cfg, q, w.signals(n + 1));
    if !r.Trips() {
      var s := r.Failed(w.clock(n + 1), cfg.cooldown);
      SerialBatchIsClosed(cfg, w, ms[1..], s, n + 2);
      ClosedConcat(cfg, p, told, Fates(cfg, w, ms[1..], s, n + 2).events);
    }
  }

  lemma ReadIsClosed(cfg: Config, w: World, s: Life)
    requires Remembers(cfg, s) && ClosedFrom(cfg, FRESH, s.events)
    ensures ClosedFrom(cfg, FRESH, s.Read(cfg, w).events)
  {
    SignalsAreClosed(cfg, s.policy, w.signals(s.readings));
    ClosedConcat(cfg, FRESH, s.events, SignalEvents(w.signals(s.readings)));
  }

  lemma GateIsClosed(cfg: Config, s: Life, now: real)
    requires Remembers(cfg, s) && ClosedFrom(cfg, FRESH, s.events)
    ensures var g := s.GateAt(now);
            && Remembers(cfg, g) && ClosedFrom(cfg, FRESH, g.events)
            && (!s.policy.SkipsAt(now) ==> g.policy.breakerOpenUntil.None?)
  {
    OneSendIsClosed(cfg, s.policy, Gate(now));
    ClosedConcat(cfg, FRESH, s.events, [Gate(now)]);
    AfterOne(cfg, FRESH, s.events, Gate(now));
  }

  lemma ProcessedIsClosed(cfg: Config, e: Turn, s: Life)
    requires cfg.Valid() && cfg.publishConcurrency == 1 && Remembers(cfg, s) && ClosedFrom(cfg, FRESH, s.events)
    ensures ClosedFrom(cfg, FRESH, Processed(cfg, e, s).events)
  {
    var gated := Gated(cfg, e, s);
    GatedRemembers(cfg, e, s);
    ReadIsClosed(cfg, e.world, s);
    GateIsClosed(cfg, s.Read(cfg, e.world), e.world.clock(s.readings));
    if Works(cfg, e, s) {
      SerialBatchIsClosed(cfg, e.world, BatchOf(cfg, e, s), gated.policy, gated.readings);
      ClosedConcat(cfg, FRESH, gated.events, TurnOutcome(cfg, e, s).events);
    }
  }

  /** A serial relay never sends with the breaker open, over its whole life. */
  lemma {:induction false} SerialLifeIsClosed(cfg: Config, script: seq<Turn>, s: Life)
    requires cfg.Valid() && cfg.publishConcurrency == 1 && Remembers(cfg, s) && ClosedFrom(cfg, FRESH, s.events)
    ensures ClosedFrom(cfg, FRESH, Lived(cfg, script, s).events)
    decreases |script|
  {
    if script != [] {
      var (here, goes) := Guarded(cfg, script[0], s);
      var t := s.(tables := here.tables);
      ReadRemembers(cfg, script[0].world, t);
      ReadIsClosed(cfg, script[0].world, t);
      if goes {
        ProcessedRemembers(cfg, script[0], here);
        ProcessedIsClosed(cfg, script[0], here);
        SerialLifeIsClosed(cfg, script[1..], Processed(cfg, script[0], here));
      }
    }
  }

  /** Over any sequence of serial batches, of three outages with no success in between some
      two neighbours are at least a cooldown apart. */
  lemma {:induction false} SerialOutagesAreSpaced(cfg: Config, script: seq<Turn>, t: Tables, from: real, i: nat, j: nat,
                                                  k: nat)
    requires cfg.Valid() && cfg.publishConcurrency == 1
    requires var h := Lived(cfg, script, Born(t)).events;
             && Chronological(h, from)
             && i < j < k < |h| && h[i].Outage? && h[j].Outage? && h[k].Outage? && NoSuccessBetween(h, i, k)
    ensures var h := Lived(cfg, script, Born(t)).events;
            h[i].at + cfg.cooldown <= h[j].at || h[j].at + cfg.cooldown <= h[k].at
  {
    var h := Lived(cfg, script, Born(t)).events;
    assert Remembers(cfg, Born(t)) && ClosedFrom(cfg, FRESH, Born(t).events);
    SerialLifeIsClosed(cfg, script, Born(t));
    assert SendsOnlyWhenClosed(cfg, h);
    ThreeOutagesSpanACooldown(cfg, h, from, i, j, k);
  }
}
