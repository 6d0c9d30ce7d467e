/** How a serial relay's outages are spaced: when a full cooldown must pass before the next
    one, and lives that show it need not. */
module Spacing {
  import opened Types
  import opened Policy
  import opened Engine
  import opened Serial
  import opened Selector
  import opened Cycle
  import opened Lifetime

  // ---- A turn that meets one outage ---------------------------------------------------------

  /** The other relays have worked off what was there, and one new task is waiting. */
  function OneTask(t: Tables, now: real): Tables {
    var p := Payload(0, "", "", "", "", None, None, "", None, None, None, CURRENT_SCHEMA_VERSION);
    Tables(map[t.nextRow := Row(t.nextRow, now, None, 0, None, p)], map[], t.nextRow + 1, t.nextDead)
  }

  /** At the time `u` the broker is down. */
  function OutageTurn(u: real): Turn {
    Turn(World(_ => u, _ => [], _ => BrokerDown(Sending), _ => 0, (_, _) => true),
         t => OneTask(t, u), t => t, {}, u, u, u, _ => 0.0, NoFault)
  }

  lemma {:induction false} OneOutage(cfg: Config, m: Row, p: PolicyState, n: nat, u: real)
    requires cfg.Valid() && m.retries == 0 && p.shutdownDeadline.None?
    ensures var t := Fates(cfg, OutageTurn(u).world, [m], p, n);
            t.events == [Event.Outage(u)] && t.policy == p.Failed(u, cfg.cooldown)
  {
    var w := OutageTurn(u).world;
    assert Hear(cfg, w, p, n) == p && Hear(cfg, w, p, n + 1) == p;
    assert SignalEvents(w.signals(n)) == [] && SignalEvents(w.signals(n + 1)) == [];
    assert [m][1..] == [];
    var none := Fates(cfg, w, [], p.Failed(u, cfg.cooldown), n + 2);
    assert none.events == [];
  }

  /** Such a turn of a serial relay passes the gate and tells of one outage. */
  lemma {:induction false} OutageTurnTells(cfg: Config, s: Life, u: real)
    requires cfg.Valid() && cfg.publishConcurrency == 1
    requires s.policy.shutdownDeadline.None? && !s.policy.SkipsAt(u)
    ensures var e := OutageTurn(u);
            && Guarded(cfg, e, s).1
            && var s' := Processed(cfg, e, Guarded(cfg, e, s).0);
               && s'.events == s.events + [Gate(u), Event.Outage(u)]
               && s'.policy == s.policy.Gated(u).Failed(u, cfg.cooldown)
  {
    var e := OutageTurn(u);
    var here := Guarded(cfg, e, s).0;
    assert Hear(cfg, e.world, s.policy, s.readings) == s.policy;
    assert SignalEvents(e.world.signals(s.readings)) == [];
    OnlyRowSelected(here.tables, cfg.staleTimeout, u, cfg.batchSize, s.tables.nextRow);
    var gated := Gated(cfg, e, here);
    OneOutage(cfg, here.tables.outbox[s.tables.nextRow], gated.policy, gated.readings, u);
  }

  /** One more such turn at the end of a life. */
  lemma {:induction false} AnotherOutage(cfg: Config, script: seq<Turn>, s: Life, u: real)
    requires cfg.Valid() && cfg.publishConcurrency == 1 && Alive(cfg, script, s)
    requires var l := Lived(cfg, script, s); l.policy.shutdownDeadline.None? && !l.policy.SkipsAt(u)
    ensures var l, more := Lived(cfg, script, s), script + [OutageTurn(u)];
            && Alive(cfg, more, s)
            && Lived(cfg, more, s).events == l.events + [Gate(u), Event.Outage(u)]
            && Lived(cfg, more, s).policy == l.policy.Gated(u).Failed(u, cfg.cooldown)
  {
    OutageTurnTells(cfg, Lived(cfg, script, s), u);
    OneTurn(cfg, OutageTurn(u), Lived(cfg, script, s));
    LivedAppend(cfg, script, [OutageTurn(u)], s);
  }

  // ---- The exact condition --------------------------------------------------------------------

  /** In a serial life an outage that opened the breaker keeps the next one, if no success
      comes between, a full cooldown away. */
  lemma {:induction false} SerialOutageAfterTripWaits(cfg: Config, script: seq<Turn>, t: Tables, from: real, j: nat,
                                                      k: nat)
    requires cfg.Valid() && cfg.publishConcurrency == 1
    requires var h := Lived(cfg, script, Born(t)).events;
             && Chronological(h, from)
             && j < k < |h| && h[j].Outage? && h[k].Outage? && NoSuccessBetween(h, j, k)
             && After(cfg, FRESH, h[..j]).Trips()
    ensures var h := Lived(cfg, script, Born(t)).events; h[j].at + cfg.cooldown <= h[k].at
  {
    var h := Lived(cfg, script, Born(t)).events;
    SerialLifeIsClosed(cfg, script, Born(t));
    PrefixNextOutage(cfg, h, from, j, k);
    NextOutageWaits(cfg, h[..j], h[j].at, h[j + 1..k], h[k].at, from);
  }

  lemma {:induction false} PrefixNextOutage(cfg: Config, h: seq<Event>, from: real, j: nat, k: nat)
    requires Chronological(h, from) && SendsOnlyWhenClosed(cfg, h)
    requires j < k < |h| && h[j].Outage? && h[k].Outage? && NoSuccessBetween(h, j, k)
    ensures NextOutage(cfg, h[..j], h[j].at, h[j + 1..k], h[k].at, from)
  {
    var full := h[..k + 1];
    PrefixChronological(h, from, k + 1);
    assert full == h[..j] + [Event.Outage(h[j].at)] + h[j + 1..k] + [Event.Outage(h[k].at)];
    forall i | 0 <= i < |full| && (full[i].Outage? || full[i].Sent?)
      ensures After(cfg, FRESH, full[..i]).breakerOpenUntil.None?
    {
      assert full[..i] == h[..i] && full[i] == h[i];
    }
  }

  /** The life goes on by `more`, and after what it told so far comes `g`, without a success,
      and an outage at `u`. */
  ghost predicate GoesOnTo(cfg: Config, script: seq<Turn>, t: Tables, more: seq<Turn>, g: seq<Event>, u: real,
                           from: real)
    requires cfg.Valid()
  {
    var sofar, h := Lived(cfg, script, Born(t)).events, Lived(cfg, script + more, Born(t)).events;
    && Chronological(h, from)
    && sofar + g + [Event.Outage(u)] <= h
    && forall i :: 0 <= i < |g| ==> !g[i].Sent?
  }

  lemma {:induction false} GoesOnLater(cfg: Config, script: seq<Turn>, t: Tables, h: seq<Event>, at: real,
                                       more: seq<Turn>, g: seq<Event>, u: real, from: real)
    requires cfg.Valid() && cfg.publishConcurrency == 1
    requires Lived(cfg, script, Born(t)).events == h + [Event.Outage(at)] && After(cfg, FRESH, h).Trips()
    requires GoesOnTo(cfg, script, t, more, g, u, from)
    ensures at + cfg.cooldown <= u
  {
    var all := Lived(cfg, script + more, Born(t)).events;
    PlacesInPrefix(all, h, at, g, u);
    SerialOutageAfterTripWaits(cfg, script + more, t, from, |h|, |h| + 1 + |g|);
  }

  lemma PlacesInPrefix(all: seq<Event>, h: seq<Event>, at: real, g: seq<Event>, u: real)
    requires h + [Event.Outage(at)] + g + [Event.Outage(u)] <= all
    requires forall i :: 0 <= i < |g| ==> !g[i].Sent?
    ensures var j, k := |h|, |h| + 1 + |g|;
            && k < |all| && all[..j] == h && all[j] == Event.Outage(at) && all[k] == Event.Outage(u)
            && NoSuccessBetween(all, j, k)
  {
    var full := h + [Event.Outage(at)] + g + [Event.Outage(u)];
    assert full == all[..|full|];
    assert all[..|h|] == full[..|h|] == h;
    forall n | |h| <= n < |h| + 1 + |g| ensures !all[n].Sent? {
      assert all[n] == full[n];
      if n > |h| { assert full[n] == g[n - |h| - 1]; }
    }
  }

  lemma {:induction false} GoesOnAtOnce(cfg: Config, script: seq<Turn>, t: Tables, h: seq<Event>, at: real, from: real)
    requires cfg.Valid() && cfg.publishConcurrency == 1 && Alive(cfg, script, Born(t))
    requires var s := Lived(cfg, script, Born(t));
             s.events == h + [Event.Outage(at)] && s.policy.shutdownDeadline.None? && Chronological(s.events, from)
    requires !After(cfg, FRESH, h).Trips()
    ensures GoesOnTo(cfg, script, t, [OutageTurn(at)], [Gate(at)], at, from)
  {
    var l := Lived(cfg, script, Born(t));
    StillClosed(cfg, script, t, h, at);
    AnotherOutage(cfg, script, Born(t), at);
    GateAndOutage(l.events, at, from);
    assert l.events + [Gate(at)] + [Event.Outage(at)] == l.events + [Gate(at), Event.Outage(at)];
  }

  /** An outage that starts a streak leaves the breaker of a serial relay closed. */
  lemma {:induction false} StillClosed(cfg: Config, script: seq<Turn>, t: Tables, h: seq<Event>, at: real)
    requires cfg.Valid() && cfg.publishConcurrency == 1
    requires Lived(cfg, script, Born(t)).events == h + [Event.Outage(at)] && !After(cfg, FRESH, h).Trips()
    ensures Lived(cfg, script, Born(t)).policy.breakerOpenUntil.None?
  {
    var l := Lived(cfg, script, Born(t));
    LifeRemembers(cfg, script, Born(t));
    SerialLifeIsClosed(cfg, script, Born(t));
    assert l.events[..|h|] == h && l.events[|h|] == Event.Outage(at);
    AfterOne(cfg, FRESH, h, Event.Outage(at));
  }

  lemma {:induction false} GateAndOutage(h: seq<Event>, at: real, from: real)
    requires h != [] && h[|h| - 1] == Event.Outage(at) && Chronological(h, from)
    ensures Chronological(h + [Gate(at), Event.Outage(at)], from)
  {
    var g := h + [Gate(at)];
    assert g[..|h|] == h;
    var full := h + [Gate(at), Event.Outage(at)];
    assert full[..|full| - 1] == g;
  }

  /** The exact condition, over lives: however a serial relay that has just met an outage goes
      on, a full cooldown passes before its next outage that no success precedes, if and only
      if the outage it met opened the breaker. */
  lemma {:induction false} SerialThirdOutageIff(cfg: Config, script: seq<Turn>, t: Tables, h: seq<Event>, at: real,
                                                from: real)
    requires cfg.Valid() && cfg.publishConcurrency == 1 && Alive(cfg, script, Born(t))
    requires var s := Lived(cfg, script, Born(t));
             s.events == h + [Event.Outage(at)] && s.policy.shutdownDeadline.None? && Chronological(s.events, from)
    ensures (forall more, g, u :: GoesOnTo(cfg, script, t, more, g, u, from) ==> at + cfg.cooldown <= u)
            <==> After(cfg, FRESH, h).Trips()
  {
    if After(cfg, FRESH, h).Trips() {
      forall more, g, u | GoesOnTo(cfg, script, t, more, g, u, from) ensures at + cfg.cooldown <= u {
        GoesOnLater(cfg, script, t, h, at, more, g, u, from);
      }
    } else {
      GoesOnAtOnce(cfg, script, t, h, at, from);
      assert at < at + cfg.cooldown;
    }
  }

  // ---- A life whose third outage comes at once ---------------------------------------------------

  /** Three outages of this life, no success between them, the third less than a cooldown
      after the second. */
  ghost predicate ThirdTooSoon(cfg: Config, script: seq<Turn>, t: Tables, i: nat, j: nat, k: nat)
    requires cfg.Valid()
  {
    var h := Lived(cfg, script, Born(t)).events;
    && Chronological(h, 0.0)
    && i < j < k < |h| && h[i].Outage? && h[j].Outage? && h[k].Outage? && NoSuccessBetween(h, i, k)
    && h[k].at < h[j].at + cfg.cooldown
  }

  /** One such turn more. */
  lemma {:induction false} OutageMore(cfg: Config, t: Tables, script: seq<Turn>, u: real) returns (more: seq<Turn>)
    requires cfg.Valid() && cfg.publishConcurrency == 1 && Alive(cfg, script, Born(t))
    requires var l := Lived(cfg, script, Born(t)); l.policy.shutdownDeadline.None? && !l.policy.SkipsAt(u)
    ensures Alive(cfg, more, Born(t))
    ensures Told(cfg, t, more, Lived(cfg, script, Born(t)).events + OneMet(u),
                 Lived(cfg, script, Born(t)).policy.Gated(u).Failed(u, cfg.cooldown))
  {
    more := script + [OutageTurn(u)];
    AnotherOutage(cfg, script, Born(t), u);
  }

  /** What such a turn tells. */
  function OneMet(u: real): seq<Event> { [Gate(u), Event.Outage(u)] }

  ghost predicate Told(cfg: Config, t: Tables, script: seq<Turn>, h: seq<Event>, p: PolicyState)
    requires cfg.Valid()
  {
    Lived(cfg, script, Born(t)).events == h && Lived(cfg, script, Born(t)).policy == p
  }

  /** Two such turns, the first of them with a fresh policy. */
  lemma {:induction false} TwoMore(cfg: Config, t: Tables, script: seq<Turn>, h: seq<Event>, p: PolicyState, u: real)
    returns (more: seq<Turn>)
    requires cfg.Valid() && cfg.publishConcurrency == 1 && Alive(cfg, script, Born(t))
    requires Told(cfg, t, script, h, p) && p.Gated(u) == FRESH
    ensures Alive(cfg, more, Born(t))
    ensures Told(cfg, t, more, h + OneMet(u) + OneMet(u), PolicyState(Some(u + cfg.cooldown), None, 2))
  {
    assert p.shutdownDeadline.None? && !p.SkipsAt(u);
    var one := OutageMore(cfg, t, script, u);
    more := OutageMore(cfg, t, one, u);
  }

  lemma {:induction false} FourOutages(cfg: Config, t: Tables) returns (script: seq<Turn>)
    requires cfg.Valid() && cfg.publishConcurrency == 1
    ensures Lived(cfg, script, Born(t)).events == FourMet(cfg.cooldown)
  {
    var two := TwoMore(cfg, t, [], [], FRESH, 0.0);
    var h, p := [] + OneMet(0.0) + OneMet(0.0), PolicyState(Some(0.0 + cfg.cooldown), None, 2);
    script := TwoMore(cfg, t, two, h, p, cfg.cooldown);
    FourMetIs(cfg.cooldown);
  }

  lemma FourMetIs(c: real)
    ensures [] + OneMet(0.0) + OneMet(0.0) + OneMet(c) + OneMet(c) == FourMet(c)
  {
  }

  function FourMet(c: real): seq<Event> {
    [Gate(0.0), Event.Outage(0.0), Gate(0.0), Event.Outage(0.0), Gate(c), Event.Outage(c), Gate(c), Event.Outage(c)]
  }

  /** "A full cooldown after the second of any three" is false of every serial relay: two
      outages open the breaker, a cooldown later two more follow each other at once. */
  lemma {:induction false} ThirdOutageMayFollowTheSecond(cfg: Config, t: Tables)
    requires cfg.Valid() && cfg.publishConcurrency == 1
    ensures exists script, i, j, k :: ThirdTooSoon(cfg, script, t, i, j, k)
  {
    var script := FourOutages(cfg, t);
    LastTwoAtOnce(Lived(cfg, script, Born(t)).events, cfg.cooldown);
    assert ThirdTooSoon(cfg, script, t, 3, 5, 7);
  }

  lemma {:induction false} LastTwoAtOnce(h: seq<Event>, c: real)
    requires c > 0.0
    requires h == FourMet(c)
    ensures Chronological(h, 0.0)
    ensures |h| == 8 && h[3] == Event.Outage(0.0) && h[5] == Event.Outage(c) && h[7] == Event.Outage(c)
    ensures NoSuccessBetween(h, 3, 7)
  {
    InOrder(h, 8);
    assert h[..8] == h;
  }

  lemma {:induction false} InOrder(h: seq<Event>, n: nat)
    requires n <= |h| && forall i :: 0 <= i < |h| ==> !h[i].Sent? && h[i].at >= 0.0
    requires forall i, j :: 0 <= i < j < |h| ==> h[i].at <= h[j].at
    ensures Chronological(h[..n], 0.0)
    ensures Latest(h[..n], 0.0) == if n == 0 then 0.0 else h[n - 1].at
    decreases n
  {
    if n > 0 {
      InOrder(h, n - 1);
      assert h[..n][..n - 1] == h[..n - 1];
    }
  }
}
