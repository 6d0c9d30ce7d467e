/** The outage breaker and the shutdown deadline (django_celery_outbox/relay/_policy.py),
    and what they guarantee over whole histories of calls. */
module Policy {
  import opened Types

  datatype PolicyState = PolicyState(
    breakerOpenUntil: Option<real>,
    shutdownDeadline: Option<real>,
    outageStreak: nat)
  {
    predicate SkipsAt(now: real) {
      breakerOpenUntil.Some? && now < breakerOpenUntil.value
    }

    function Gated(now: real): PolicyState {
      if breakerOpenUntil.Some? && now >= breakerOpenUntil.value
      then this.(breakerOpenUntil := None, outageStreak := 0)
      else this
    }

    function Succeeded(): PolicyState { this.(outageStreak := 0) }

    /** Would one more outage open (or extend) the breaker? */
    predicate Trips() { outageStreak >= 1 }

    function Failed(now: real, cooldown: real): PolicyState {
      this.(outageStreak := outageStreak + 1,
            breakerOpenUntil := if Trips() then Some(now + cooldown) else breakerOpenUntil)
    }

    function Signalled(now: real, shutdownTimeout: real): PolicyState {
      this.(shutdownDeadline := Some(now + shutdownTimeout))
    }

    predicate DeadlineExceeded(now: real) {
      shutdownDeadline.Some? && now >= shutdownDeadline.value
    }
  }

  const FRESH := PolicyState(None, None, 0)

  class RelayPolicy {
    const brokerOutageCooldown: real
    const shutdownTimeout: real
    var breakerOpenUntil: Option<real>
    var shutdownDeadline: Option<real>
    var outageStreak: nat

    constructor (cooldown: real, timeout: real)
      ensures brokerOutageCooldown == cooldown && shutdownTimeout == timeout
      ensures State() == FRESH
    {
      brokerOutageCooldown, shutdownTimeout := cooldown, timeout;
      breakerOpenUntil, shutdownDeadline, outageStreak := None, None, 0;
    }

    function State(): PolicyState
      reads this
    {
      PolicyState(breakerOpenUntil, shutdownDeadline, outageStreak)
    }

    method ShouldSkipBatch(now: real) returns (skip: bool)
      modifies this
      ensures skip == old(State()).SkipsAt(now)
      ensures State() == old(State()).Gated(now)
    {
      if breakerOpenUntil == None {
        return false;
      }
      if now >= breakerOpenUntil.value {
        breakerOpenUntil := None;
        outageStreak := 0;
        return false;
      }
      return true;
    }

    function SecondsUntilBatchRetry(now: real): (s: real)
      reads this
      ensures s >= 0.0
      ensures s > 0.0 <==> State().SkipsAt(now)
      ensures s > 0.0 ==> !State().SkipsAt(now + s)
      ensures forall at :: now <= at < now + s ==> State().SkipsAt(at)
    {
      if breakerOpenUntil == None || breakerOpenUntil.value - now <= 0.0 then 0.0
      else breakerOpenUntil.value - now
    }

    method RecordSuccess()
      modifies this
      ensures State() == old(State()).Succeeded()
    {
      outageStreak := 0;
    }

    method RecordOutage(now: real) returns (tripped: bool)
      modifies this
      ensures tripped == old(State()).Trips()
      ensures State() == old(State()).Failed(now, brokerOutageCooldown)
    {
      outageStreak := outageStreak + 1;
      if outageStreak >= 2 {
        breakerOpenUntil := Some(now + brokerOutageCooldown);
        return true;
      }
      return false;
    }

    method BeginShutdown(now: real)
      modifies this
      ensures State() == old(State()).Signalled(now, shutdownTimeout)
    {
      shutdownDeadline := Some(now + shutdownTimeout);
    }

    function ShutdownRequested(): bool
      reads this
    {
      shutdownDeadline.Some?
    }

    function ShutdownDeadlineExceeded(now: real): bool
      reads this
    {
      shutdownDeadline.Some? && now >= shutdownDeadline.value
    }
  }

  // ---- Histories ------------------------------------------------------------------

  /** What a relay tells its policy, in order. `Gate` is the check before a batch. */
  datatype Event =
    | Gate(at: real)
    | Sent
    | Outage(at: real)
    | Signal(at: real)

  function Apply(cfg: Config, p: PolicyState, e: Event): PolicyState {
    match e
    case Gate(t) => p.Gated(t)
    case Sent => p.Succeeded()
    case Outage(t) => p.Failed(t, cfg.cooldown)
    case Signal(t) => p.Signalled(t, cfg.shutdownTimeout)
  }

  function After(cfg: Config, p: PolicyState, h: seq<Event>): PolicyState {
    if h == [] then p else Apply(cfg, After(cfg, p, h[..|h| - 1]), h[|h| - 1])
  }

  /** The latest time mentioned, at least `from`. */
  function Latest(h: seq<Event>, from: real): real {
    if h == [] then from
    else if h[|h| - 1].Sent? then Latest(h[..|h| - 1], from)
    else h[|h| - 1].at
  }

  /** Times never run backwards. */
  ghost predicate Chronological(h: seq<Event>, from: real) {
    h == [] ||
    (Chronological(h[..|h| - 1], from)
     && (h[|h| - 1].Sent? || Latest(h[..|h| - 1], from) <= h[|h| - 1].at))
  }

  lemma {:induction false} AfterConcat(cfg: Config, p: PolicyState, a: seq<Event>, b: seq<Event>)
    ensures After(cfg, p, a + b) == After(cfg, After(cfg, p, a), b)
    decreases |b|
  {
    if b == [] {
      assert a + b == a;
    } else {
      assert (a + b)[..|a + b| - 1] == a + b[..|b| - 1];
      AfterConcat(cfg, p, a, b[..|b| - 1]);
    }
  }

  lemma {:induction false} ChronologicalConcat(a: seq<Event>, b: seq<Event>, from: real)
    ensures Latest(a + b, from) == Latest(b, Latest(a, from))
    ensures Chronological(a + b, from) <==> Chronological(a, from) && Chronological(b, Latest(a, from))
    decreases |b|
  {
    if b == [] {
      assert a + b == a;
    } else {
      assert (a + b)[..|a + b| - 1] == a + b[..|b| - 1];
      ChronologicalConcat(a, b[..|b| - 1], from);
    }
  }

  lemma {:induction false} LatestGrows(h: seq<Event>, from: real)
    requires Chronological(h, from)
    ensures from <= Latest(h, from)
    decreases |h|
  {
    if h != [] { LatestGrows(h[..|h| - 1], from); }
  }

  /** The outage at `i` found the streak running, so it opened the breaker. */
  ghost predicate TrippedAt(cfg: Config, h: seq<Event>, i: int) {
    0 <= i < |h| && h[i].Outage? && After(cfg, FRESH, h[..i]).Trips()
  }

  /** Some trip of the history is still less than a cooldown old at `now`. */
  ghost predicate Cooling(cfg: Config, h: seq<Event>, now: real) {
    exists i :: TrippedAt(cfg, h, i) && now < h[i].at + cfg.cooldown
  }

  /** Whatever the relay did before, in whatever order, a batch is skipped exactly while
      some breaker trip is less than a full cooldown old. */
  lemma {:induction false} GateSkipsExactlyWhileCooling(cfg: Config, h: seq<Event>, from: real, now: real)
    requires Chronological(h, from) && Latest(h, from) <= now && cfg.cooldown > 0.0
    ensures After(cfg, FRESH, h).SkipsAt(now) <==> Cooling(cfg, h, now)
    decreases |h|
  {
    if h != [] {
      var front, e := h[..|h| - 1], h[|h| - 1];
      assert Latest(front, from) <= now;
      GateSkipsExactlyWhileCooling(cfg, front, from, now);
      CoolingExtends(cfg, front, e, now);
      assert h == front + [e];
      var p := After(cfg, FRESH, front);
      if e.Outage? && p.Trips() && p.breakerOpenUntil.Some? {
        OpenUntilBounded(cfg, front, from);
      }
    }
  }

  lemma CoolingExtends(cfg: Config, front: seq<Event>, e: Event, now: real)
    ensures Cooling(cfg, front + [e], now) <==>
              Cooling(cfg, front, now)
              || (e.Outage? && After(cfg, FRESH, front).Trips() && now < e.at + cfg.cooldown)
  {
    var h := front + [e];
    assert forall i :: 0 <= i < |front| ==> h[..i] == front[..i];
    assert h[..|front|] == front;
    if Cooling(cfg, front, now) {
      var i :| TrippedAt(cfg, front, i) && now < front[i].at + cfg.cooldown;
      assert TrippedAt(cfg, h, i) && now < h[i].at + cfg.cooldown;
    }
    if e.Outage? && After(cfg, FRESH, front).Trips() {
      assert TrippedAt(cfg, h, |front|);
    }
    forall i | TrippedAt(cfg, h, i) && i < |front| ensures TrippedAt(cfg, front, i) {}
  }

  lemma {:induction false} OpenUntilBounded(cfg: Config, h: seq<Event>, from: real)
    requires Chronological(h, from)
    ensures var u := After(cfg, FRESH, h).breakerOpenUntil;
            u.Some? ==> u.value <= Latest(h, from) + cfg.cooldown
    decreases |h|
  {
    if h != [] { OpenUntilBounded(cfg, h[..|h| - 1], from); }
  }

  /** The exact condition: the newest outage keeps batches away for its whole cooldown
      if and only if the streak was already running when it came (or an earlier trip at
      the same instant already reaches as far). */
  lemma LastOutageHoldsTheGateIff(cfg: Config, h: seq<Event>, t: real, from: real)
    requires cfg.Valid() && Chronological(h + [Event.Outage(t)], from)
    ensures (forall now :: t <= now < t + cfg.cooldown ==> After(cfg, FRESH, h + [Event.Outage(t)]).SkipsAt(now))
            <==> (After(cfg, FRESH, h).Trips() || After(cfg, FRESH, h).breakerOpenUntil == Some(t + cfg.cooldown))
  {
    var full := h + [Event.Outage(t)];
    assert full[..|full| - 1] == h;
    OpenUntilBounded(cfg, full, from);
    var p := After(cfg, FRESH, full);
    if p.breakerOpenUntil == None || p.breakerOpenUntil.value < t + cfg.cooldown {
      var now := if p.breakerOpenUntil == None || p.breakerOpenUntil.value < t then t else p.breakerOpenUntil.value;
      assert t <= now < t + cfg.cooldown && !p.SkipsAt(now);
    }
  }

  // ---- What the streak and the deadline stand for -----------------------------------------

  /** The gate check at `j` finds the breaker's time over. */
  ghost predicate Reopens(cfg: Config, h: seq<Event>, j: int) {
    && 0 <= j < |h| && h[j].Gate?
    && After(cfg, FRESH, h[..j]).breakerOpenUntil.Some?
    && After(cfg, FRESH, h[..j]).breakerOpenUntil.value <= h[j].at
  }

  /** An outage that neither a success nor a reopened gate follows. */
  ghost predicate StillCounts(cfg: Config, h: seq<Event>, i: int) {
    0 <= i < |h| && h[i].Outage? && forall j :: i < j < |h| ==> !h[j].Sent? && !Reopens(cfg, h, j)
  }

  lemma ReopensBefore(cfg: Config, front: seq<Event>, e: Event, j: int)
    requires j < |front|
    ensures Reopens(cfg, front + [e], j) <==> Reopens(cfg, front, j)
  {
    if 0 <= j { assert (front + [e])[..j] == front[..j]; }
  }

  /** One more outage opens the breaker exactly when some outage came since the last success and
      since the breaker last closed. */
  lemma {:induction false} TripsIffOutageCounts(cfg: Config, h: seq<Event>)
    ensures After(cfg, FRESH, h).Trips() <==> exists i :: StillCounts(cfg, h, i)
    decreases |h|
  {
    if h != [] {
      var front, e, n := h[..|h| - 1], h[|h| - 1], |h| - 1;
      assert h == front + [e] && h[..n] == front;
      TripsIffOutageCounts(cfg, front);
      forall j | j < n ensures Reopens(cfg, h, j) <==> Reopens(cfg, front, j) {
        ReopensBefore(cfg, front, e, j);
      }
      if e.Outage? {
        assert StillCounts(cfg, h, n);
      } else {
        forall i ensures StillCounts(cfg, h, i) <==> StillCounts(cfg, front, i) && !e.Sent? && !Reopens(cfg, h, n) {
          if StillCounts(cfg, h, i) { assert i < n; }
        }
      }
    }
  }

  /** The signal at `i` is the last one of the history. */
  ghost predicate LastSignal(h: seq<Event>, i: int) {
    0 <= i < |h| && h[i].Signal? && forall j :: i < j < |h| ==> !h[j].Signal?
  }

  /** Of a relay that began with the policy `p` and then told it `h`: its last shutdown signal is
      a full shutdown timeout old, or there was none and `p` had its deadline passed already. */
  ghost predicate DeadlinePassed(cfg: Config, p: PolicyState, h: seq<Event>, now: real) {
    || (exists i :: LastSignal(h, i) && h[i].at + cfg.shutdownTimeout <= now)
    || (&& (forall i :: 0 <= i < |h| ==> !h[i].Signal?)
        && p.shutdownDeadline.Some? && p.shutdownDeadline.value <= now)
  }

  /** Whatever the relay did, the deadline has passed exactly then. */
  lemma {:induction false} DeadlineIsLastSignal(cfg: Config, p: PolicyState, h: seq<Event>, now: real)
    ensures After(cfg, p, h).DeadlineExceeded(now) <==> DeadlinePassed(cfg, p, h, now)
    ensures After(cfg, p, h).shutdownDeadline.Some?
            <==> p.shutdownDeadline.Some? || exists i :: 0 <= i < |h| && h[i].Signal?
    decreases |h|
  {
    if h != [] {
      var front, e, n := h[..|h| - 1], h[|h| - 1], |h| - 1;
      DeadlineIsLastSignal(cfg, p, front, now);
      assert forall j :: 0 <= j < n ==> h[j] == front[j];
      if e.Signal? {
        assert LastSignal(h, n);
        assert forall i :: LastSignal(h, i) ==> i == n;
      } else {
        forall i ensures LastSignal(h, i) <==> LastSignal(front, i) {}
      }
    }
  }

  // ---- Three outages ----------------------------------------------------------------

  /** Every send of the history was started with the breaker closed, as a serial relay does. */
  ghost predicate SendsOnlyWhenClosed(cfg: Config, h: seq<Event>) {
    forall i :: 0 <= i < |h| && (h[i].Outage? || h[i].Sent?) ==>
      After(cfg, FRESH, h[..i]).breakerOpenUntil.None?
  }

  ghost predicate NoSuccessBetween(h: seq<Event>, i: int, k: int)
    requires 0 <= i <= k <= |h|
  {
    forall n :: i <= n < k ==> !h[n].Sent?
  }

  /** While no send succeeds, an outage at `i` is remembered: the streak keeps running and
      an open breaker stays open at least a cooldown from `i`, unless that long has passed. */
  lemma {:induction false} OutageRemembered(cfg: Config, h: seq<Event>, from: real, i: nat, n: nat)
    requires Chronological(h, from) && SendsOnlyWhenClosed(cfg, h) && cfg.cooldown > 0.0
    requires i < n <= |h| && h[i].Outage? && NoSuccessBetween(h, i, n)
    ensures Chronological(h[..n], from)
    ensures h[i].at + cfg.cooldown <= Latest(h[..n], from)
            || (var p := After(cfg, FRESH, h[..n]);
                && p.outageStreak >= 1
                && (TrippedAt(cfg, h, i) ==> p.breakerOpenUntil.Some?)
                && (p.breakerOpenUntil.Some? ==> h[i].at + cfg.cooldown <= p.breakerOpenUntil.value))
    ensures h[i].at <= Latest(h[..n], from)
    decreases n
  {
    PrefixChronological(h, from, n);
    assert h[..n][..n - 1] == h[..n - 1];
    if n == i + 1 {
      assert After(cfg, FRESH, h[..i]).breakerOpenUntil.None?;
    } else {
      OutageRemembered(cfg, h, from, i, n - 1);
    }
  }

  lemma {:induction false} PrefixChronological(h: seq<Event>, from: real, n: nat)
    requires Chronological(h, from) && n <= |h|
    ensures Chronological(h[..n], from) && Latest(h[..n], from) <= Latest(h, from)
    decreases |h| - n
  {
    if n == |h| {
      assert h[..n] == h;
    } else {
      PrefixChronological(h, from, n + 1);
      assert h[..n + 1][..n] == h[..n];
    }
  }

  /** A serial relay never meets three outages, without a success in between, closer
      together than a cooldown: one of the two gaps is at least that long. */
  lemma {:induction false} ThreeOutagesSpanACooldown(cfg: Config, h: seq<Event>, from: real, i: nat, j: nat, k: nat)
    requires Chronological(h, from) && SendsOnlyWhenClosed(cfg, h) && cfg.cooldown > 0.0
    requires i < j < k < |h| && h[i].Outage? && h[j].Outage? && h[k].Outage?
    requires NoSuccessBetween(h, i, k)
    ensures h[i].at + cfg.cooldown <= h[j].at || h[j].at + cfg.cooldown <= h[k].at
  {
    OutageRemembered(cfg, h, from, i, j);
    OutageRemembered(cfg, h, from, j, k);
    PrefixChronological(h, from, j + 1);
    assert h[..j + 1][..j] == h[..j];
    PrefixChronological(h, from, k + 1);
    assert h[..k + 1][..k] == h[..k];
  }

  /** `h`, an outage at `t`, `g` without a success, and an outage at `u`, as a serial relay may
      live them. */
  ghost predicate NextOutage(cfg: Config, h: seq<Event>, t: real, g: seq<Event>, u: real, from: real) {
    var full := h + [Event.Outage(t)] + g + [Event.Outage(u)];
    && Chronological(full, from) && SendsOnlyWhenClosed(cfg, full)
    && forall i :: 0 <= i < |g| ==> !g[i].Sent?
  }

  lemma {:induction false} NextOutageWaits(cfg: Config, h: seq<Event>, t: real, g: seq<Event>, u: real, from: real)
    requires cfg.Valid() && NextOutage(cfg, h, t, g, u, from) && After(cfg, FRESH, h).Trips()
    ensures t + cfg.cooldown <= u
  {
    var before := h + [Event.Outage(t)] + g;
    var full := before + [Event.Outage(u)];
    var i, k := |h|, |before|;
    assert full[..i] == h && full[..k] == before && full[i] == Event.Outage(t) && full[k] == Event.Outage(u);
    forall n | i <= n < k ensures !full[n].Sent? {
      if n > i { assert full[n] == g[n - i - 1]; }
    }
    assert TrippedAt(cfg, full, i);
    OutageRemembered(cfg, full, from, i, k);
    PrefixChronological(full, from, k + 1);
    assert full[..k + 1] == full && full[..k + 1][..k] == before;
  }

  lemma {:induction false} NextOutageAtOnce(cfg: Config, h: seq<Event>, t: real, from: real)
    requires Chronological(h + [Event.Outage(t)], from) && SendsOnlyWhenClosed(cfg, h + [Event.Outage(t)])
    requires !After(cfg, FRESH, h).Trips()
    ensures NextOutage(cfg, h, t, [], t, from)
  {
    var first := h + [Event.Outage(t)];
    var full := first + [Event.Outage(t)];
    assert first + [] == first;
    assert full[..|first|] == first && first[..|h|] == h;
    forall i | 0 <= i < |full| && (full[i].Outage? || full[i].Sent?)
      ensures After(cfg, FRESH, full[..i]).breakerOpenUntil.None?
    {
      if i < |first| {
        assert full[..i] == first[..i] && full[i] == first[i];
      } else {
        assert After(cfg, FRESH, first[..|h|]).breakerOpenUntil.None?;
      }
    }
  }

  /** When a full cooldown must pass before the next outage that no success precedes: exactly
      if the outage at `t` found the streak running, so that it opened the breaker. */
  lemma {:induction false} NextOutageWaitsIff(cfg: Config, h: seq<Event>, t: real, from: real)
    requires cfg.Valid()
    requires Chronological(h + [Event.Outage(t)], from) && SendsOnlyWhenClosed(cfg, h + [Event.Outage(t)])
    ensures (forall g, u :: NextOutage(cfg, h, t, g, u, from) ==> t + cfg.cooldown <= u)
            <==> After(cfg, FRESH, h).Trips()
  {
    if After(cfg, FRESH, h).Trips() {
      forall g, u | NextOutage(cfg, h, t, g, u, from) ensures t + cfg.cooldown <= u {
        NextOutageWaits(cfg, h, t, g, u, from);
      }
    } else {
      NextOutageAtOnce(cfg, h, t, from);
      assert t < t + cfg.cooldown;
    }
  }
}
