/** The relay itself (django_celery_outbox/relay/_relay.py): its loops as they run, each
    proved to compute what the specifications of one batch say. */
module RelayLoops {
  import opened Types
  import opened Policy
  import opened Engine
  import opened Serial
  import opened Parallel
  import opened Mutations
  import opened Selector
  import opened Cycle

  /** The containers one parallel batch shares between its helpers. Futures are named by the
      message they send, in submission order. `window` is the batch as the specification
      sees it. */
  class ParallelBatch {
    var remaining: seq<Row>
    var pending: seq<Row>
    var published: seq<nat>
    var failed: seq<(nat, nat)>
    var exceeded: seq<Row>
    var deferred: seq<nat>
    /** How many drains there have been: the world is asked per drain what has finished. */
    var drains: nat
    ghost var window: Window

    ghost predicate Valid()
      reads this
    {
      && remaining == window.remaining && pending == window.pending && drains == window.drains && window.Valid()
      && Lists(published, failed, exceeded, deferred, []) == Listing(window.settled, window.fates)
    }

    constructor (messages: seq<Row>, p: PolicyState, n: nat)
      ensures Valid() && window == Begin(messages, p, n)
    {
      remaining, pending := messages, [];
      published, failed, exceeded, deferred := [], [], [], [];
      drains := 0;
      window := Begin(messages, p, n);
    }
  }

  lemma SettleOne(w: Window, m: Row, f: Fate)
    requires w.Valid()
    ensures Listing(w.settled + [m], w.fates + [f]) == Plus(Listing(w.settled, w.fates), One(m, f))
  {
    ListingConcat(w.settled, w.fates, [m], [f]);
    PlusNothing(One(m, f));
    assert Listing([m], [f]) == Plus(One(m, f), Listing([], []));
  }

  lemma BreakerListingStep(cfg: Config, ms: seq<Row>, i: nat)
    requires i < |ms|
    ensures var l, l' := Listing(ms[..i], BreakerFates(cfg, ms[..i])),
            Listing(ms[..i + 1], BreakerFates(cfg, ms[..i + 1]));
            && l'.exceeded == l.exceeded + (if ms[i].retries >= cfg.maxRetries then [ms[i]] else [])
            && l'.deferred == l.deferred + (if ms[i].retries >= cfg.maxRetries then [] else [ms[i].id])
  {
    var f := BreakerFate(cfg, ms[i]);
    assert ms[..i + 1] == ms[..i] + [ms[i]];
    assert BreakerFates(cfg, ms[..i + 1]) == BreakerFates(cfg, ms[..i]) + [f];
    ListingConcat(ms[..i], BreakerFates(cfg, ms[..i]), [ms[i]], [f]);
    assert Listing([ms[i]], [f]) == Plus(One(ms[i], f), Listing([], []));
  }

  lemma FailSettles(cfg: Config, w: World, s: Window, m: Row, a: Attempt)
    requires s.Valid() && !a.Accepted?
    ensures var r, f := s.Fail(cfg, w, m, a), if a.BrokerDown? then Deferred else RefusedFate(cfg, m);
            && r.Valid() && Listing(r.settled, r.fates) == Plus(Listing(s.settled, s.fates), One(m, f))
            && r.remaining == s.remaining && r.pending == s.pending && r.drains == s.drains
  {
    SettleOne(s, m, if a.BrokerDown? then Deferred else RefusedFate(cfg, m));
  }

  class Relay {
    const config: Config
    const policy: RelayPolicy
    const selector: MessageSelector
    const mutations: RelayMutations
    var running: bool
    /** How often the monotonic clock was read. */
    var readings: nat

    constructor (config: Config)
      ensures this.config == config && Valid() && running && readings == 0
      ensures policy.State() == FRESH && fresh(policy)
    {
      this.config := config;
      policy := new RelayPolicy(config.cooldown, config.shutdownTimeout);
      selector := new MessageSelector(config.batchSize, config.staleTimeout);
      mutations := new RelayMutations(config);
      running := true;
      readings := 0;
    }

    ghost predicate Valid()
      reads this`running, policy
    {
      && (running <==> policy.shutdownDeadline.None?)
      && policy.brokerOutageCooldown == config.cooldown && policy.shutdownTimeout == config.shutdownTimeout
      && selector.batchSize == config.batchSize && selector.staleTimeout == config.staleTimeout
      && mutations.cfg == config
    }

    method HandleSignal(now: real)
      requires Valid()
      modifies this`running, policy
      ensures Valid()
      ensures policy.State() == old(policy.State()).Signalled(now, config.shutdownTimeout)
      ensures policy.shutdownDeadline == Some(now + config.shutdownTimeout)
      ensures policy.breakerOpenUntil == old(policy.breakerOpenUntil) && policy.outageStreak == old(policy.outageStreak)
      ensures !running
    {
      policy.BeginShutdown(now);
      running := false;
    }

    /** Reading the clock; the signals due by then are handled first. */
    method Monotonic(w: World) returns (now: real)
      requires Valid()
      modifies this, policy
      ensures Valid()
      ensures now == w.clock(old(readings)) && readings == old(readings) + 1
      ensures policy.State() == Hear(config, w, old(policy.State()), old(readings))
    {
      var due := w.signals(readings);
      ghost var was := policy.State();
      for i := 0 to |due|
        invariant HearAll(config, policy.State(), due[i..]) == HearAll(config, was, due)
        invariant Valid()
        invariant readings == old(readings)
      {
        HandleSignal(due[i]);
        assert due[i..][1..] == due[i + 1..];
      }
      now := w.clock(readings);
      readings := readings + 1;
    }

    // ---- Serial --------------------------------------------------------------------------

    method ClassifyBreakerRemaining(messages: seq<Row>, exceeded: seq<Row>, deferred: seq<nat>)
      returns (exceeded': seq<Row>, deferred': seq<nat>)
      ensures var l := Listing(messages, BreakerFates(config, messages));
              exceeded' == exceeded + l.exceeded && deferred' == deferred + l.deferred
    {
      exceeded', deferred' := exceeded, deferred;
      for i := 0 to |messages|
        invariant var l := Listing(messages[..i], BreakerFates(config, messages[..i]));
                  exceeded' == exceeded + l.exceeded && deferred' == deferred + l.deferred
      {
        var msg := messages[i];
        if msg.retries >= config.maxRetries {
          exceeded' := exceeded' + [msg];
        } else {
          deferred' := deferred' + [msg.id];
        }
        BreakerListingStep(config, messages, i);
      }
      assert messages[..|messages|] == messages;
    }

    method RecordNonOutageFailure(msg: Row, failed: seq<(nat, nat)>, exceeded: seq<Row>)
      returns (failed': seq<(nat, nat)>, exceeded': seq<Row>)
      ensures var l := One(msg, RefusedFate(config, msg));
              failed' == failed + l.failed && exceeded' == exceeded + l.exceeded
    {
      failed', exceeded' := failed, exceeded;
      if msg.retries >= config.maxRetries - 1 {
        exceeded' := exceeded' + [msg];
        return;
      }
      failed' := failed' + [(msg.id, msg.retries)];
    }

    /** The attempt at one message and what the loop records about it. */
    method PublishAndRecord(w: World, msg: Row, published: seq<nat>, failed: seq<(nat, nat)>, exceeded: seq<Row>,
                            deferred: seq<nat>)
      returns (published': seq<nat>, failed': seq<(nat, nat)>, exceeded': seq<Row>, deferred': seq<nat>,
               breakerOpened: bool)
      requires Valid()
      modifies this, policy
      ensures Valid()
      ensures Lists(published', failed', exceeded', deferred', [])
              == Plus(Lists(published, failed, exceeded, deferred, []), One(msg, PublishFate(config, w, msg)))
      ensures policy.State() == PublishPolicy(config, w, msg, old(policy.State()), old(readings))
      ensures readings == PublishReadings(w, msg, old(readings))
      ensures breakerOpened <==> PublishTrips(config, w, msg, old(policy.State()), old(readings))
    {
      published', failed', exceeded', deferred', breakerOpened := published, failed, exceeded, deferred, false;
      match w.attempt(msg.id)
      case Accepted =>
        policy.RecordSuccess();
        published' := published' + [msg.id];
      case Refused(_) =>
        failed', exceeded' := RecordNonOutageFailure(msg, failed, exceeded);
      case BrokerDown(_) =>
        deferred' := deferred' + [msg.id];
        var now := Monotonic(w);
        breakerOpened := policy.RecordOutage(now);
    }

    /** One turn of the serial loop, up to the point where it may leave the loop. */
    method TakeMessage(w: World, msg: Row, published: seq<nat>, failed: seq<(nat, nat)>, exceeded: seq<Row>,
                       deferred: seq<nat>)
      returns (published': seq<nat>, failed': seq<(nat, nat)>, exceeded': seq<Row>, deferred': seq<nat>,
               verdict: Verdict)
      requires Valid()
      modifies this, policy
      ensures Valid()
      ensures var acc := Account(Lists(published, failed, exceeded, deferred, []), old(policy.State()), old(readings));
              (Account(Lists(published', failed', exceeded', deferred', []), policy.State(), readings), verdict)
              == Taken(config, w, msg, acc)
    {
      published', failed', exceeded', deferred', verdict := published, failed, exceeded, deferred, GoOn;
      PlusExceededOrDeferred(Lists(published, failed, exceeded, deferred, []), msg);
      var now := Monotonic(w);
      if policy.ShutdownDeadlineExceeded(now) {
        verdict := CutOff;
        return;
      }
      if msg.retries >= config.maxRetries {
        exceeded' := exceeded' + [msg];
        return;
      }
      var breakerOpened: bool;
      published', failed', exceeded', deferred', breakerOpened := PublishAndRecord(w, msg, published, failed, exceeded,
            deferred);
      verdict := if breakerOpened then Tripped else GoOn;
    }

    method ProcessMessagesSerial(w: World, messages: seq<Row>)
      returns (published: seq<nat>, failed: seq<(nat, nat)>, exceeded: seq<Row>, deferred: seq<nat>, aborted: seq<Row>)
      requires Valid()
      modifies this, policy
      ensures Valid()
      ensures var t := Fates(config, w, messages, old(policy.State()), old(readings));
              && Lists(published, failed, exceeded, deferred, aborted) == Listing(messages, t.fates)
              && policy.State() == t.policy && readings == t.readings
    {
      published, failed, exceeded, deferred, aborted := [], [], [], [], [];
      ghost var acc := Account(NOTHING, policy.State(), readings);
      ghost var final := Final(config, w, messages, acc);
      SerialEnd(w, messages, policy.State(), readings);
      assert messages[0..] == messages;
      for index := 0 to |messages|
        invariant Valid() && aborted == []
        invariant acc == Account(Lists(published, failed, exceeded, deferred, []), policy.State(), readings)
        invariant Final(config, w, messages[index..], acc) == final
      {
        var msg := messages[index];
        assert messages[index..][0] == msg && messages[index..][1..] == messages[index + 1..];
        var verdict: Verdict;
        published, failed, exceeded, deferred, verdict := TakeMessage(w, msg, published, failed, exceeded, deferred);
        acc := Account(Lists(published, failed, exceeded, deferred, []), policy.State(), readings);
        if verdict == CutOff {
          aborted := messages[index..];
          return;
        }
        if verdict == Tripped {
          OnlyTwoListsGrow(config, acc.lists, messages[index + 1..]);
          exceeded, deferred := ClassifyBreakerRemaining(messages[index + 1..], exceeded, deferred);
          return;
        }
      }
    }

    lemma SerialEnd(w: World, messages: seq<Row>, p: PolicyState, n: nat)
      ensures var t := Fates(config, w, messages, p, n);
              Final(config, w, messages, Account(NOTHING, p, n))
                  == Account(Listing(messages, t.fates), t.policy, t.readings)
    {
      FinalIsFates(config, w, messages, Account(NOTHING, p, n));
      PlusNothing(Listing(messages, Fates(config, w, messages, p, n).fates));
    }

    // ---- Parallel ------------------------------------------------------------------------

    /** The batch and the relay agree with the specification's window. */
    ghost predicate Tied(b: ParallelBatch)
      reads this, policy, b
    {
      b.Valid() && policy.State() == b.window.policy && readings == b.window.readings
    }

    /** Files a failed attempt; true when it opened the breaker. */
    method ClassifyParallelPublishException(w: World, b: ParallelBatch, msg: Row, attempt: Attempt)
        returns (breakerOpened: bool)
      requires Valid() && Tied(b) && !attempt.Accepted?
      modifies this, policy, b
      ensures Valid()
      ensures Tied(b) && b.window == old(b.window).Fail(config, w, msg, attempt)
      ensures breakerOpened <==> attempt.BrokerDown? && old(policy.State()).Trips()
    {
      ghost var s := b.window;
      FailSettles(config, w, s, msg, attempt);
      if attempt.BrokerDown? {
        HearKeepsBreaker(config, policy.State(), w.signals(readings));
        var now := Monotonic(w);
        breakerOpened := policy.RecordOutage(now);
        FileDeferred(b, msg, s.Fail(config, w, msg, attempt));
      } else {
        breakerOpened := false;
        FileRefused(b, msg, s.Fail(config, w, msg, attempt));
      }
    }

    /** `next` is the window once the outage of `msg` is filed. */
    method FileDeferred(b: ParallelBatch, msg: Row, ghost next: Window)
      requires b.Valid() && next.Valid()
      requires Listing(next.settled, next.fates) == Plus(Listing(b.window.settled, b.window.fates), One(msg, Deferred))
      requires next.remaining == b.window.remaining && next.pending == b.window.pending
               && next.drains == b.window.drains
      modifies b
      ensures b.Valid() && b.window == next
    {
      b.deferred := b.deferred + [msg.id];
      b.window := next;
    }

    method FileRefused(b: ParallelBatch, msg: Row, ghost next: Window)
      requires b.Valid() && next.Valid()
      requires Listing(next.settled, next.fates) == Plus(Listing(b.window.settled, b.window.fates),
                                                         One(msg, RefusedFate(config, msg)))
      requires next.remaining == b.window.remaining && next.pending == b.window.pending
               && next.drains == b.window.drains
      modifies b
      ensures b.Valid() && b.window == next
    {
      b.failed, b.exceeded := RecordNonOutageFailure(msg, b.failed, b.exceeded);
      b.window := next;
    }

    /** One message of the fill loop. */
    method FillNext(w: World, b: ParallelBatch, breakerExc: bool) returns (stop: Stop, breakerExc': bool)
      requires Valid() && Tied(b) && MayFill(config, b.window) && breakerExc == b.window.breakerExc
      modifies this, policy, b
      ensures Valid()
      ensures Tied(b) && b.window == FillOne(config, w, old(b.window))
      ensures stop == b.window.stop && breakerExc' == b.window.breakerExc
    {
      ghost var s := b.window;
      var now := Monotonic(w);
      b.window := s.Read(config, w);
      if policy.ShutdownDeadlineExceeded(now) {
        b.window := b.window.CutOff();
        return ByShutdown, breakerExc;
      }
      stop, breakerExc' := TakeNext(w, b, breakerExc);
    }

    method RecordPreExceeded(b: ParallelBatch, msg: Row)
      requires b.Valid()
      modifies b
      ensures b.Valid() && b.window == old(b.window).Settle(msg, PreExceeded)
    {
      SettleOne(b.window, msg, PreExceeded);
      b.exceeded := b.exceeded + [msg];
      b.window := b.window.Settle(msg, PreExceeded);
    }

    /** The part of that iteration after the deadline check. */
    method TakeNext(w: World, b: ParallelBatch, breakerExc: bool) returns (stop: Stop, breakerExc': bool)
      requires Valid() && Tied(b) && MayFill(config, b.window) && breakerExc == b.window.breakerExc
      modifies this, policy, b
      ensures Valid()
      ensures Tied(b) && b.window == TakeOne(config, w, old(b.window))
      ensures stop == b.window.stop && breakerExc' == b.window.breakerExc
    {
      ghost var s := b.window;
      stop, breakerExc' := Running, breakerExc;
      var msg := b.remaining[0];
      b.remaining := b.remaining[1..];
      b.window := s.(remaining := s.remaining[1..]);
      ghost var u := b.window;
      if msg.retries >= config.maxRetries {
        RecordPreExceeded(b, msg);
        return;
      }
      var attempt := w.attempt(msg.id);
      if FailsEarly(attempt) {
        var breakerOpened := ClassifyParallelPublishException(w, b, msg, attempt);
        if breakerOpened {
          stop, breakerExc' := ByBreaker, true;
          b.window := b.window.(stop := ByBreaker, breakerExc := true);
        }
        return;
      }
      b.pending := b.pending + [msg];
      b.window := u.(pending := u.pending + [msg]);
    }

    method FillParallelWindow(w: World, b: ParallelBatch, stop: Stop, breakerExc: bool, wait: bool)
        returns (stop': Stop, breakerExc': bool)
      requires Valid() && Tied(b)
      requires stop == b.window.stop && breakerExc == b.window.breakerExc && wait == b.window.wait
      modifies this, policy, b
      ensures Valid()
      ensures Tied(b) && b.window == if wait then old(b.window) else Fill(config, w, old(b.window))
      ensures stop' == b.window.stop && breakerExc' == b.window.breakerExc
    {
      stop', breakerExc' := stop, breakerExc;
      if wait {
        return;
      }
      while b.remaining != [] && |b.pending| < config.publishConcurrency && stop' == Running
        invariant Valid() && Tied(b) && stop' == b.window.stop && breakerExc' == b.window.breakerExc
        invariant Fill(config, w, b.window) == Fill(config, w, old(b.window))
        decreases |b.remaining|, stop' == Running
      {
        stop', breakerExc' := FillNext(w, b, breakerExc');
      }
    }

    /** Files the outcome of a send that was in flight. */
    method ProcessParallelCompletion(w: World, b: ParallelBatch, msg: Row)
        returns (breakerOpened: bool, sawOutage: bool)
      requires Valid() && Tied(b)
      modifies this, policy, b
      ensures Valid()
      ensures Tied(b) && b.window == Complete(config, w, old(b.window), msg)
      ensures sawOutage <==> w.attempt(msg.id).BrokerDown?
      ensures breakerOpened <==> sawOutage && old(policy.State()).Trips()
    {
      ghost var s := b.window;
      var attempt := w.attempt(msg.id);
      if attempt.Accepted? {
        policy.RecordSuccess();
        b.published := b.published + [msg.id];
        SettleOne(s, msg, Published);
        b.window := Complete(config, w, s, msg);
        return false, false;
      }
      breakerOpened := ClassifyParallelPublishException(w, b, msg, attempt);
      sawOutage := attempt.BrokerDown?;
    }

    method PopPending(b: ParallelBatch, future: nat) returns (msg: Row)
      requires b.Valid() && future < |b.pending|
      modifies b`pending, b`window
      ensures b.Valid() && b.window == Landed(old(b.window), future) && msg == old(b.window).pending[future]
    {
      msg := b.pending[future];
      b.pending := b.pending[..future] + b.pending[future + 1..];
      b.window := Landed(b.window, future);
    }

    method ConsumeParallelFuture(w: World, b: ParallelBatch, future: nat, stop: Stop, breakerExc: bool)
      returns (stop': Stop, breakerExc': bool, shouldWait: bool)
      requires Valid() && Tied(b) && future < |b.pending|
      requires stop == b.window.stop && breakerExc == b.window.breakerExc
      modifies this, policy, b
      ensures Valid()
      ensures Tied(b)
      ensures b.window == Consume(config, w, old(b.window), future)
      ensures stop' == b.window.stop && breakerExc' == b.window.breakerExc
      ensures b.window.wait <==> old(b.window.wait) || shouldWait
    {
      ghost var s := b.window;
      stop', breakerExc', shouldWait := stop, breakerExc, false;
      var msg := PopPending(b, future);
      var breakerOpened, sawOutage := ProcessParallelCompletion(w, b, msg);
      b.window := Consume(config, w, s, future);
      if breakerOpened {
        if stop == ByShutdown {
          return stop, true, false;
        }
        return ByBreaker, true, b.pending != [];
      }
      shouldWait := sawOutage && b.pending != [];
    }

    method DrainParallelCompletions(w: World, b: ParallelBatch, stop: Stop, breakerExc: bool)
      returns (stop': Stop, breakerExc': bool, wait: bool)
      requires Valid() && Tied(b) && b.pending != []
      requires stop == b.window.stop && breakerExc == b.window.breakerExc
      modifies this, policy, b
      ensures Valid()
      ensures Tied(b) && b.window == Drain(config, w, old(b.window))
      ensures stop' == b.window.stop && breakerExc' == b.window.breakerExc && wait == b.window.wait
    {
      ghost var s := b.window;
      var drain := b.drains;
      b.drains := drain + 1;
      b.window := s.(wait := false, drains := drain + 1);
      var first := w.first(drain) % |b.pending|;
      stop', breakerExc', wait := ConsumeParallelFuture(w, b, first, stop, breakerExc);
      var i := 0;
      while i < |b.pending|
        invariant i <= |b.pending| && Valid() && Tied(b)
        invariant stop' == b.window.stop && breakerExc' == b.window.breakerExc && wait == b.window.wait
        invariant DrainRest(config, w, b.window, drain, i) == Drain(config, w, s)
        decreases |b.pending| - i
      {
        if w.done(drain, b.pending[i].id) {
          var shouldWait: bool;
          stop', breakerExc', shouldWait := ConsumeParallelFuture(w, b, i, stop', breakerExc');
          wait := wait || shouldWait;
        } else {
          i := i + 1;
        }
      }
    }

    /** The deadline check at the head of the loop. */
    method CheckParallelDeadline(w: World, b: ParallelBatch, stop: Stop) returns (stop': Stop)
      requires Valid() && Tied(b) && stop == b.window.stop
      modifies this, policy, b
      ensures Valid()
      ensures Tied(b) && b.window == CheckDeadline(config, w, old(b.window)) && stop' == b.window.stop
    {
      stop' := stop;
      ghost var s := b.window;
      if stop == Running {
        var now := Monotonic(w);
        if policy.ShutdownDeadlineExceeded(now) {
          stop' := ByShutdown;
        }
      }
      b.window := CheckDeadline(config, w, s);
    }

    method RefillParallelWindow(w: World, b: ParallelBatch, stop: Stop, breakerExc: bool, wait: bool)
      returns (stop': Stop, breakerExc': bool)
      requires Valid() && Tied(b)
      requires stop == b.window.stop && breakerExc == b.window.breakerExc && wait == b.window.wait
      modifies this, policy, b
      ensures Valid()
      ensures Tied(b) && b.window == Refill(config, w, old(b.window)) && b.window.wait == wait
      ensures stop' == b.window.stop && breakerExc' == b.window.breakerExc
    {
      RefillEnds(config, w, b.window);
      stop' := CheckParallelDeadline(w, b, stop);
      stop', breakerExc' := FillParallelWindow(w, b, stop', breakerExc, wait);
    }

    method RunParallelWindow(w: World, b: ParallelBatch) returns (stop: Stop, breakerExc: bool)
      requires config.Valid() && Valid() && Tied(b) && !b.window.wait
      requires b.window.stop == Running && !b.window.breakerExc
      modifies this, policy, b
      ensures Valid()
      ensures Tied(b) && b.window == Loop(config, w, old(b.window))
      ensures stop == b.window.stop && breakerExc == b.window.breakerExc
    {
      stop, breakerExc := Running, false;
      var waitForInflight := false;
      while b.pending != [] || b.remaining != []
        invariant Valid() && Tied(b) && stop == b.window.stop && breakerExc == b.window.breakerExc
                  && waitForInflight == b.window.wait
        invariant Loop(config, w, b.window) == Loop(config, w, old(b.window))
        decreases b.window.Measure()
      {
        stop, breakerExc := RefillParallelWindow(w, b, stop, breakerExc, waitForInflight);
        if b.pending == [] {
          return;
        }
        stop, breakerExc, waitForInflight := DrainParallelCompletions(w, b, stop, breakerExc);
      }
    }

    method ProcessMessagesParallel(w: World, messages: seq<Row>)
      returns (published: seq<nat>, failed: seq<(nat, nat)>, exceeded: seq<Row>, deferred: seq<nat>, aborted: seq<Row>)
      requires config.Valid() && Valid()
      modifies this, policy
      ensures Valid()
      ensures var r := Run(config, w, messages, old(policy.State()), old(readings));
              && r.Valid() && Lists(published, failed, exceeded, deferred, aborted) == Listing(r.settled, r.fates)
              && policy.State() == r.policy && readings == r.readings
    {
      var b := new ParallelBatch(messages, policy.State(), readings);
      var stop, breakerExc := RunParallelWindow(w, b);
      assert Run(config, w, messages, old(policy.State()), old(readings)) == Finish(config, b.window);
      published, failed, exceeded, deferred, aborted := FinishParallel(b, stop, breakerExc);
    }

    /** What happens to the messages still remaining when the window loop ends. */
    method FinishParallel(b: ParallelBatch, stop: Stop, breakerExc: bool)
      returns (published: seq<nat>, failed: seq<(nat, nat)>, exceeded: seq<Row>, deferred: seq<nat>, aborted: seq<Row>)
      requires b.Valid() && stop == b.window.stop && breakerExc == b.window.breakerExc
      ensures var r := Finish(config, b.window);
              r.Valid() && Lists(published, failed, exceeded, deferred, aborted) == Listing(r.settled, r.fates)
    {
      published, failed, exceeded, deferred, aborted := b.published, b.failed, b.exceeded, b.deferred, [];
      FinishListing(b.window, Lists(published, failed, exceeded, deferred, []));
      if stop == ByShutdown && b.remaining != [] {
        aborted := b.remaining;
      }
      if stop == ByBreaker && breakerExc {
        exceeded, deferred := ClassifyBreakerRemaining(b.remaining, exceeded, deferred);
      }
    }

    lemma FinishListing(s: Window, l: Lists)
      requires s.Valid() && l == Listing(s.settled, s.fates) && l.aborted == []
      ensures var r, more := Finish(config, s), Listing(s.remaining, BreakerFates(config, s.remaining));
              && r.Valid()
              && Listing(r.settled, r.fates) ==
                   if s.stop == ByShutdown then l.(aborted := s.remaining)
                   else if s.stop == ByBreaker && s.breakerExc then
                     l.(exceeded := l.exceeded + more.exceeded, deferred := l.deferred + more.deferred)
                   else l
    {
      PlusNothing(l);
      if s.stop == ByShutdown {
        var fates := seq(|s.remaining|, _ => Aborted);
        ListingConcat(s.settled, s.fates, s.remaining, fates);
        AllAborted(s.remaining, fates);
      } else if s.stop == ByBreaker && s.breakerExc {
        ListingConcat(s.settled, s.fates, s.remaining, BreakerFates(config, s.remaining));
        OnlyStranded(config, s.remaining);
      }
    }

    method ProcessMessages(w: World, messages: seq<Row>)
      returns (published: seq<nat>, failed: seq<(nat, nat)>, exceeded: seq<Row>, deferred: seq<nat>, aborted: seq<Row>)
      requires config.Valid() && Valid()
      modifies this, policy
      ensures Valid()
      ensures var o := BatchOutcome(config, w, messages, old(policy.State()), old(readings));
              && Lists(published, failed, exceeded, deferred, aborted) == o.lists
              && policy.State() == o.policy && readings == o.readings
    {
      ghost var p, n := policy.State(), readings;
      if config.publishConcurrency == 1 {
        published, failed, exceeded, deferred, aborted := ProcessMessagesSerial(w, messages);
      } else {
        published, failed, exceeded, deferred, aborted := ProcessMessagesParallel(w, messages);
      }
    }

    // ---- The main loop -------------------------------------------------------------------

    /** The database and the relay are where the life `s` says. */
    ghost predicate Follows(db: Database, s: Life)
      reads this`readings, policy, db
    {
      db.View() == s.tables && policy.State() == s.policy && readings == s.readings
    }

    /** Other sessions' transactions. */
    method Elapse(db: Database, others: Tables -> Tables)
      modifies db
      ensures db.View() == others(old(db.View()))
    {
      var t := others(db.View());
      db.outbox, db.dead, db.nextRow, db.nextDead := t.outbox, t.dead, t.nextRow, t.nextDead;
    }

    /** The second transaction. */
    method Commit(db: Database, published: seq<nat>, failed: seq<(nat, nat)>, exceeded: seq<Row>, deferred: seq<nat>,
                  jitters: seq<real>, now: real)
      requires Valid() && |jitters| == |failed|
      modifies db
      ensures db.View() == Settle(config, old(db.View()), Lists(published, failed, exceeded, deferred, []), jitters,
                                  now)
    {
      mutations.UpdateFailed(db, failed, jitters, now);
      mutations.DeletePublished(db, published);
      mutations.MoveExceededToDeadLetter(db, exceeded, now);
      mutations.DeferDueToOutage(db, deferred, now);
    }

    /** Gate, claim, publish, commit. */
    method Processing(db: Database, e: Turn, ghost s: Life) returns (worked: bool, ghost s': Life)
      requires config.Valid() && Valid() && Follows(db, s)
      modifies this, policy, db
      ensures Valid()
      ensures s' == Processed(config, e, s) && Follows(db, s')
      ensures worked <==> |s'.batches| > |s.batches|
    {
      s' := Processed(config, e, s);
      var now := Monotonic(e.world);
      var skip := policy.ShouldSkipBatch(now);
      if skip || e.fault == ClaimFails {
        return false, s';
      }
      var messages := selector.Run(db, e.locked, e.claimAt);
      var published, failed, exceeded, deferred, aborted := ProcessMessages(e.world, messages);
      Elapse(db, e.between);
      if e.fault != CommitFails {
        SettleIgnoresAborted(config, db.View(), Lists(published, failed, exceeded, deferred, aborted),
                             e.Jitters(|failed|), e.commitAt);
        Commit(db, published, failed, exceeded, deferred, e.Jitters(|failed|), e.commitAt);
      }
      worked := true;
    }

    method ShouldContinueDraining(db: Database, e: Turn) returns (continues: bool)
      requires Valid()
      modifies this, policy
      ensures Valid()
      ensures old(policy.State()).shutdownDeadline.None? ==>
                !continues && policy.State() == old(policy.State()) && readings == old(readings)
      ensures old(policy.State()).shutdownDeadline.Some? ==>
                && policy.State() == Hear(config, e.world, old(policy.State()), old(readings))
                && readings == old(readings) + 1
                && (continues <==> !policy.State().DeadlineExceeded(e.world.clock(old(readings)))
                                   && Backlog(db.View(), e.checkAt, config.staleTimeout))
      ensures continues ==> exists id :: id in db.outbox && Eligible(db.outbox[id], e.checkAt, config.staleTimeout)
    {
      if !policy.ShutdownRequested() {
        return false;
      }
      var now := Monotonic(e.world);
      if policy.ShutdownDeadlineExceeded(now) {
        return false;
      }
      continues := Backlog(db.View(), e.checkAt, config.staleTimeout);
    }

    /** `start`, for as long as `script` says what happens around it. */
    method Start(db: Database, script: seq<Turn>, ghost s: Life) returns (ghost s': Life)
      requires config.Valid() && Valid() && Follows(db, s)
      modifies this, policy, db
      ensures Valid()
      ensures s' == Lived(config, script, s) && Follows(db, s')
    {
      s' := s;
      for i := 0 to |script|
        invariant Valid() && Follows(db, s')
        invariant Lived(config, script[i..], s') == Lived(config, script, s)
      {
        assert script[i..][0] == script[i] && script[i..][1..] == script[i + 1..];
        var e := script[i];
        ghost var (here, goes) := Guarded(config, e, s');
        Elapse(db, e.before);
        var continues := running;
        if !continues {
          continues := ShouldContinueDraining(db, e);
        }
        s' := here;
        if !continues {
          return;
        }
        ghost var next;
        var worked;
        worked, next := Processing(db, e, s');
        s' := next;
      }
    }
  }

  lemma SettleIgnoresAborted(cfg: Config, t: Tables, l: Lists, jitters: seq<real>, now: real)
    requires |jitters| == |l.failed|
    ensures Settle(cfg, t, l.(aborted := []), jitters, now) == Settle(cfg, t, l, jitters, now)
  {
  }
}
