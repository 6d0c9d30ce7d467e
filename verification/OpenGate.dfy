/** A parallel life in which a batch is claimed although the last outage is less than a
    cooldown old. */
module OpenGate {
  import opened Types
  import opened Policy
  import opened Engine
  import opened Parallel
  import opened Selector
  import opened Cycle
  import opened Lifetime

  function NewTask(id: nat): Row {
    Row(id, 0.0, None, 0, None, Payload(id, "", "", "", "", None, None, "", None, None, None, CURRENT_SCHEMA_VERSION))
  }

  const FOUR: seq<Row> := [NewTask(0), NewTask(1), NewTask(2), NewTask(3)]

  const FOUR_TASKS: Tables :=
    Tables(map[0 := NewTask(0), 1 := NewTask(1), 2 := NewTask(2), 3 := NewTask(3)], map[], 4, 0)

  /** The third send succeeds, the others meet the broker down, the last of them half a
      cooldown later; all four finish together, in the order they were submitted. */
  function LateSuccess(cooldown: real): World {
    World(n => if n <= 7 then 0.0 else cooldown / 2.0,
          _ => [],
          id => if id == 2 then Accepted else BrokerDown(Sending),
          _ => 0,
          (_, _) => true)
  }

  function FirstTurnOf(cooldown: real): Turn {
    Turn(LateSuccess(cooldown), t => t, t => t, {}, 0.0, 0.0, 0.0, _ => 0.0, NoFault)
  }

  lemma {:induction false} AllFourSelected(stale: real, limit: nat)
    requires limit >= 4
    ensures Selected(FOUR_TASKS, {}, stale, 0.0, limit) == FOUR
  {
    var t := FOUR_TASKS;
    assert FreeFrom(t, {}, stale, 0.0, 4) == [];
    assert FreeFrom(t, {}, stale, 0.0, 3) == [NewTask(3)];
    assert FreeFrom(t, {}, stale, 0.0, 2) == [NewTask(2), NewTask(3)];
    assert FreeFrom(t, {}, stale, 0.0, 1) == [NewTask(1), NewTask(2), NewTask(3)];
    assert FreeFrom(t, {}, stale, 0.0, 0) == FOUR;
  }

  ghost predicate FourNew(rows: seq<Row>) {
    |rows| == 4 && forall i :: 0 <= i < 4 ==> rows[i].id == i && rows[i].retries == 0
  }

  /** After `k` fills. */
  function Filled(rows: seq<Row>, k: nat): Window
    requires k <= |rows|
  {
    Begin(rows, FRESH, 2 + k).(remaining := rows[k..], pending := rows[..k])
  }

  /** A fill that submits the next message. */
  lemma {:induction false} Submits(cfg: Config, rows: seq<Row>, k: nat)
    requires cfg.Valid() && cfg.publishConcurrency == 4 && FourNew(rows) && k < 4
    ensures Fill(cfg, LateSuccess(cfg.cooldown), Filled(rows, k))
            == Fill(cfg, LateSuccess(cfg.cooldown), Filled(rows, k + 1))
  {
    var w, s := LateSuccess(cfg.cooldown), Filled(rows, k);
    assert Hear(cfg, w, FRESH, s.readings) == FRESH;
    assert s.events + SignalEvents(w.signals(s.readings)) == s.events;
    assert rows[k..][1..] == rows[k + 1..] && rows[..k] + [rows[k]] == rows[..k + 1];
    assert FillOne(cfg, w, s) == Filled(rows, k + 1);
  }

  lemma {:induction false} WindowFills(cfg: Config, rows: seq<Row>)
    requires cfg.Valid() && cfg.publishConcurrency == 4 && FourNew(rows)
    ensures Refill(cfg, LateSuccess(cfg.cooldown), Begin(rows, FRESH, 1)) == Filled(rows, 4)
  {
    var w, s := LateSuccess(cfg.cooldown), Begin(rows, FRESH, 1);
    assert Hear(cfg, w, FRESH, 1) == FRESH && s.events + SignalEvents(w.signals(1)) == s.events;
    assert rows[0..] == rows && rows[..0] == [];
    assert CheckDeadline(cfg, w, s) == Filled(rows, 0);
    Submits(cfg, rows, 0);
    Submits(cfg, rows, 1);
    Submits(cfg, rows, 2);
    Submits(cfg, rows, 3);
  }

  /** What matters of the window while it drains. */
  ghost predicate Draining(s: Window, rows: seq<Row>, k: nat, readings: nat, p: PolicyState, h: seq<Event>)
    requires k <= |rows|
  {
    s.pending == rows[k..] && s.remaining == [] && s.readings == readings && s.policy == p && s.events == h
  }

  /** What one completion tells the policy. */
  lemma {:induction false} Completes(cfg: Config, s: Window, rows: seq<Row>, k: nat, n: nat, p: PolicyState,
                                     h: seq<Event>)
    requires FourNew(rows) && k < 4 && Draining(s, rows, k, n, p, h)
    ensures var w := LateSuccess(cfg.cooldown);
            var r, at := Consume(cfg, w, s, 0), w.clock(n);
            if k == 2 then Draining(r, rows, k + 1, n, p.Succeeded(), h + [Sent])
            else Draining(r, rows, k + 1, n + 1, p.Failed(at, cfg.cooldown), h + [Event.Outage(at)])
  {
    var w := LateSuccess(cfg.cooldown);
    assert Hear(cfg, w, p, n) == p;
    assert h + SignalEvents(w.signals(n)) == h;
    assert rows[k..][..0] + rows[k..][1..] == rows[k + 1..];
  }

  /** All that is left is taken by the same drain. */
  lemma {:induction false} TakesNext(cfg: Config, w: World, s: Window, drain: nat)
    requires s.pending != [] && forall d, id :: w.done(d, id)
    ensures DrainRest(cfg, w, s, drain, 0) == DrainRest(cfg, w, Consume(cfg, w, s, 0), drain, 0)
  {
  }

  /** The drain takes all four. */
  lemma {:induction false} DrainTakesAll(cfg: Config, rows: seq<Row>)
    requires cfg.Valid() && FourNew(rows)
    ensures var c := cfg.cooldown;
            var r := Drain(cfg, LateSuccess(c), Filled(rows, 4));
            Draining(r, rows, 4, 9, PolicyState(Some(c), None, 1),
                     [Event.Outage(0.0), Event.Outage(0.0), Sent, Event.Outage(c / 2.0)])
  {
    var c, s := cfg.cooldown, Filled(rows, 4);
    var s0 := s.(wait := false, drains := 1);
    assert rows[0..] == rows && rows[..4] == rows;
    var s1 := NextTaken(cfg, s0, rows, 0, 6, FRESH, []);
    DrainOldest(cfg, LateSuccess(c), s);
    RestTaken(cfg, s1, rows);
  }

  lemma {:induction false} RestTaken(cfg: Config, s: Window, rows: seq<Row>)
    requires cfg.Valid() && FourNew(rows)
    requires Draining(s, rows, 1, 7, PolicyState(None, None, 1), [Event.Outage(0.0)])
    ensures var c := cfg.cooldown;
            Draining(DrainRest(cfg, LateSuccess(c), s, 0, 0), rows, 4, 9, PolicyState(Some(c), None, 1),
                     [Event.Outage(0.0), Event.Outage(0.0), Sent, Event.Outage(c / 2.0)])
  {
    var c, h := cfg.cooldown, [Event.Outage(0.0), Event.Outage(0.0)];
    var s2 := NextTaken(cfg, s, rows, 1, 7, PolicyState(None, None, 1), [Event.Outage(0.0)]);
    var s3 := NextTaken(cfg, s2, rows, 2, 8, PolicyState(Some(c), None, 2), h);
    var s4 := NextTaken(cfg, s3, rows, 3, 8, PolicyState(Some(c), None, 0), h + [Sent]);
  }

  lemma {:induction false} NextTaken(cfg: Config, s: Window, rows: seq<Row>, k: nat, n: nat, p: PolicyState,
                                     h: seq<Event>)
    returns (r: Window)
    requires FourNew(rows) && k < 4 && Draining(s, rows, k, n, p, h)
    ensures r == Consume(cfg, LateSuccess(cfg.cooldown), s, 0)
    ensures DrainRest(cfg, LateSuccess(cfg.cooldown), s, 0, 0) == DrainRest(cfg, LateSuccess(cfg.cooldown), r, 0, 0)
    ensures var at := LateSuccess(cfg.cooldown).clock(n);
            if k == 2 then Draining(r, rows, k + 1, n, p.Succeeded(), h + [Sent])
            else Draining(r, rows, k + 1, n + 1, p.Failed(at, cfg.cooldown), h + [Event.Outage(at)])
  {
    Completes(cfg, s, rows, k, n, p, h);
    TakesNext(cfg, LateSuccess(cfg.cooldown), s, 0);
    r := Consume(cfg, LateSuccess(cfg.cooldown), s, 0);
  }

  /** The batch: two outages open the breaker, a send already in flight then succeeds, and the
      last one meets a third outage. */
  lemma {:induction false} LateSuccessBatch(cfg: Config, rows: seq<Row>)
    requires cfg.Valid() && cfg.publishConcurrency == 4 && FourNew(rows)
    ensures var c := cfg.cooldown;
            var r := Run(cfg, LateSuccess(c), rows, FRESH, 1);
            && r.events == [Event.Outage(0.0), Event.Outage(0.0), Sent, Event.Outage(c / 2.0)]
            && r.policy == PolicyState(Some(c), None, 1) && r.readings == 9
  {
    var w, s := LateSuccess(cfg.cooldown), Begin(rows, FRESH, 1);
    WindowFills(cfg, rows);
    DrainTakesAll(cfg, rows);
    var d := Drain(cfg, w, Filled(rows, 4));
    assert Loop(cfg, w, d) == d;
    assert Loop(cfg, w, s) == d;
  }

  /** After `script` the relay's next turn `e` works on a batch, although the last thing it
      met was an outage and that is less than a cooldown ago. */
  ghost predicate GateOpenTooSoon(cfg: Config, script: seq<Turn>, t: Tables, e: Turn)
    requires cfg.Valid()
  {
    var s := Lived(cfg, script, Born(t));
    && Alive(cfg, script, Born(t)) && Chronological(s.events, 0.0)
    && s.events != [] && s.events[|s.events| - 1].Outage?
    && Guarded(cfg, e, s).1
    && var here := Guarded(cfg, e, s).0; var now := e.world.clock(here.readings);
       && |Processed(cfg, e, here).batches| > |here.batches|
       && s.events[|s.events| - 1].at <= now < s.events[|s.events| - 1].at + cfg.cooldown
  }

  lemma {:induction false} FirstTurnTells(cfg: Config)
    requires cfg.Valid() && cfg.publishConcurrency == 4 && cfg.batchSize >= 4
    ensures var c := cfg.cooldown;
            var e, s := FirstTurnOf(c), Born(FOUR_TASKS);
            && Guarded(cfg, e, s) == (s, true)
            && var s' := Processed(cfg, e, s);
               && s'.events == [Gate(0.0), Event.Outage(0.0), Event.Outage(0.0), Sent, Event.Outage(c / 2.0)]
               && s'.policy == PolicyState(Some(c), None, 1) && s'.readings == 9
  {
    var e, s := FirstTurnOf(cfg.cooldown), Born(FOUR_TASKS);
    assert Hear(cfg, e.world, FRESH, 0) == FRESH && [] + SignalEvents(e.world.signals(0)) == [];
    var gated := Gated(cfg, e, s);
    assert gated == s.(readings := 1, events := [Gate(0.0)]);
    AllFourSelected(cfg.staleTimeout, cfg.batchSize);
    FourTold(cfg, e, s, FOUR);
  }

  lemma {:induction false} FourTold(cfg: Config, e: Turn, s: Life, rows: seq<Row>)
    requires cfg.Valid() && cfg.publishConcurrency == 4 && e == FirstTurnOf(cfg.cooldown)
    requires FourNew(rows) && BatchOf(cfg, e, s) == rows
    requires Gated(cfg, e, s) == s.(readings := 1, events := [Gate(0.0)], policy := FRESH) && Works(cfg, e, s)
    ensures var c := cfg.cooldown;
            var s' := Processed(cfg, e, s);
            && s'.events == [Gate(0.0), Event.Outage(0.0), Event.Outage(0.0), Sent, Event.Outage(c / 2.0)]
            && s'.policy == PolicyState(Some(c), None, 1) && s'.readings == 9
  {
    LateSuccessBatch(cfg, rows);
    var h := [Event.Outage(0.0), Event.Outage(0.0), Sent, Event.Outage(cfg.cooldown / 2.0)];
    assert [Gate(0.0)] + h == [Gate(0.0), Event.Outage(0.0), Event.Outage(0.0), Sent, Event.Outage(cfg.cooldown / 2.0)];
  }

  lemma EventsInOrder(c: real)
    requires c > 0.0
    ensures Chronological([Gate(0.0), Event.Outage(0.0), Event.Outage(0.0), Sent, Event.Outage(c / 2.0)], 0.0)
  {
    var a := [Gate(0.0)];
    var b := [Gate(0.0), Event.Outage(0.0)];
    var d := [Gate(0.0), Event.Outage(0.0), Event.Outage(0.0)];
    var e := [Gate(0.0), Event.Outage(0.0), Event.Outage(0.0), Sent];
    var f := [Gate(0.0), Event.Outage(0.0), Event.Outage(0.0), Sent, Event.Outage(c / 2.0)];
    assert f[..4] == e && e[..3] == d && d[..2] == b && b[..1] == a && a[..0] == [];
    assert Latest(a, 0.0) == 0.0 && Latest(b, 0.0) == 0.0 && Latest(d, 0.0) == 0.0 && Latest(e, 0.0) == 0.0;
    assert Chronological(a, 0.0) && Chronological(b, 0.0) && Chronological(d, 0.0) && Chronological(e, 0.0);
  }

  lemma {:induction false} LateSuccessLife(cfg: Config) returns (script: seq<Turn>, t: Tables)
    requires cfg.Valid() && cfg.publishConcurrency == 4 && cfg.batchSize >= 4
    ensures Alive(cfg, script, Born(t))
    ensures var c, s := cfg.cooldown, Lived(cfg, script, Born(t));
            && Chronological(s.events, 0.0)
            && s.events != [] && s.events[|s.events| - 1] == Event.Outage(c / 2.0)
            && s.policy == PolicyState(Some(c), None, 1)
  {
    EventsInOrder(cfg.cooldown);
    t := FOUR_TASKS;
    script := [FirstTurnOf(cfg.cooldown)];
    FirstTurnTells(cfg);
    OneTurn(cfg, FirstTurnOf(cfg.cooldown), Born(t));
  }

  /** "No batch until a cooldown after the last outage" is false of a relay with a window of
      four: a send that was already in flight succeeds after the trip and restarts the streak,
      so the outage after it is a first one again and moves nothing. */
  lemma {:induction false} LastOutageNeedNotHoldTheGate(cfg: Config)
    requires cfg.Valid() && cfg.publishConcurrency == 4 && cfg.batchSize >= 4
    ensures exists script, t, e :: GateOpenTooSoon(cfg, script, t, e)
  {
    var script, t := LateSuccessLife(cfg);
    var e := SecondTurnOf(cfg.cooldown);
    var l := Lived(cfg, script, Born(t));
    GateLetsThrough(cfg, e, l);
    TooSoon(cfg, script, t, e);
  }

  lemma {:induction false} TooSoon(cfg: Config, script: seq<Turn>, t: Tables, e: Turn)
    requires cfg.Valid() && Alive(cfg, script, Born(t))
    requires var s := Lived(cfg, script, Born(t)); var here := Guarded(cfg, e, s).0;
             && Chronological(s.events, 0.0)
             && s.events != [] && s.events[|s.events| - 1] == Event.Outage(cfg.cooldown / 2.0)
             && Guarded(cfg, e, s).1 && |Processed(cfg, e, here).batches| > |here.batches|
             && e.world.clock(here.readings) == cfg.cooldown
    ensures exists script, t, e :: GateOpenTooSoon(cfg, script, t, e)
  {
    assert GateOpenTooSoon(cfg, script, t, e);
  }

  function SecondTurnOf(cooldown: real): Turn {
    FirstTurnOf(cooldown).(world := World(_ => cooldown, _ => [], _ => Accepted, _ => 0, (_, _) => true))
  }

  lemma {:induction false} GateLetsThrough(cfg: Config, e: Turn, l: Life)
    requires cfg.Valid() && l.policy == PolicyState(Some(cfg.cooldown), None, 1)
    requires e.fault == NoFault && e.world.signals(l.readings) == [] && e.world.clock(l.readings) == cfg.cooldown
    ensures Guarded(cfg, e, l).1
    ensures var here := Guarded(cfg, e, l).0;
            here.readings == l.readings && |Processed(cfg, e, here).batches| > |here.batches|
  {
    assert Hear(cfg, e.world, l.policy, l.readings) == l.policy;
    BatchesGrow(cfg, e, Guarded(cfg, e, l).0);
  }
}
