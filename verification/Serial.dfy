/** What one serial batch does, message by message, and what its five lists are worth
    (django_celery_outbox/relay/_relay.py, `_process_messages_serial`). */
module Serial {
  import opened Types
  import opened Policy
  import opened Engine

  /** Where a message of a serial batch ends up, and why. `Deferred` met the outage itself,
      `Stranded` came after the outage that opened the breaker. */
  datatype Fate = Published | Failed | GaveUp | PreExceeded | Deferred | Stranded | Aborted

  datatype Tally = Tally(
    fates: seq<Fate>,
    policy: PolicyState,
    readings: nat,
    events: seq<Event>,
    seen: Option<Sighting>)
  {
    function After1(fate: Fate, before: seq<Event>): Tally {
      this.(fates := [fate] + fates, events := before + events, seen := Shifted(seen, |before|))
    }
  }

  /** The same check, `k` events having come before. */
  function Shifted(seen: Option<Sighting>, k: nat): Option<Sighting> {
    if seen.None? then None else Some(seen.value.(told := seen.value.told + k))
  }

  function RefusedFate(cfg: Config, m: Row): Fate {
    if m.retries >= cfg.maxRetries - 1 then GaveUp else Failed
  }

  function BreakerFate(cfg: Config, m: Row): Fate {
    if m.retries >= cfg.maxRetries then PreExceeded else Stranded
  }

  function BreakerFates(cfg: Config, ms: seq<Row>): (fates: seq<Fate>)
    ensures |fates| == |ms|
    ensures forall i :: 0 <= i < |ms| ==> fates[i] == BreakerFate(cfg, ms[i])
  {
    seq(|ms|, i requires 0 <= i < |ms| => BreakerFate(cfg, ms[i]))
  }

  /** The fates of `ms`, with the policy at `p` and `n` clock readings behind us. */
  function Fates(cfg: Config, w: World, ms: seq<Row>, p: PolicyState, n: nat): (t: Tally)
    ensures |t.fates| == |ms|
    decreases |ms|
  {
    if ms == [] then Tally([], p, n, [], None)
    else
      var m, rest := ms[0], ms[1..];
      var heard := SignalEvents(w.signals(n));
      var q := Hear(cfg, w, p, n);
      if q.DeadlineExceeded(w.clock(n)) then
        Tally(seq(|ms|, _ => Aborted), q, n + 1, heard, Some(Sighting(n, |heard|, ms)))
      else if m.retries >= cfg.maxRetries then
        Fates(cfg, w, rest, q, n + 1).After1(PreExceeded, heard)
      else
        match w.attempt(m.id)
        case Accepted =>
          Fates(cfg, w, rest, q.Succeeded(), n + 1).After1(Published, heard + [Sent])
        case Refused(_) =>
          Fates(cfg, w, rest, q, n + 1).After1(RefusedFate(cfg, m), heard)
        case BrokerDown(_) =>
          var r := Hear(cfg, w, q, n + 1);
          var now := w.clock(n + 1);
          var s := r.Failed(now, cfg.cooldown);
          var told := heard + SignalEvents(w.signals(n + 1)) + [Event.Outage(now)];
          if r.Trips() then
            Tally([Deferred] + BreakerFates(cfg, rest), s, n + 2, told, None)
          else
            Fates(cfg, w, rest, s, n + 2).After1(Deferred, told)
  }

  function One(m: Row, f: Fate): Lists {
    match f
    case Published => AddPublished(NOTHING, m)
    case Failed => NOTHING.(failed := [(m.id, m.retries)])
    case GaveUp | PreExceeded => AddExceeded(NOTHING, m)
    case Deferred | Stranded => AddDeferred(NOTHING, m)
    case Aborted => NOTHING.(aborted := [m])
  }

  function Listing(ms: seq<Row>, fates: seq<Fate>): Lists
    requires |ms| == |fates|
  {
    if ms == [] then NOTHING else Plus(One(ms[0], fates[0]), Listing(ms[1..], fates[1..]))
  }

  lemma {:induction false} ListingConcat(a: seq<Row>, fa: seq<Fate>, b: seq<Row>, fb: seq<Fate>)
    requires |a| == |fa| && |b| == |fb|
    ensures Listing(a + b, fa + fb) == Plus(Listing(a, fa), Listing(b, fb))
    decreases |a|
  {
    if a == [] {
      assert a + b == b && fa + fb == fb;
      PlusNothing(Listing(b, fb));
    } else {
      assert (a + b)[1..] == a[1..] + b && (fa + fb)[1..] == fa[1..] + fb;
      ListingConcat(a[1..], fa[1..], b, fb);
      PlusAssociates(One(a[0], fa[0]), Listing(a[1..], fa[1..]), Listing(b, fb));
    }
  }

  // ---- Partition and order --------------------------------------------------------------

  lemma {:induction false} ListingPartitions(ms: seq<Row>, fates: seq<Fate>)
    requires |ms| == |fates|
    ensures Classified(Listing(ms, fates)) == multiset(Ids(ms))
    decreases |ms|
  {
    if ms != [] {
      ListingPartitions(ms[1..], fates[1..]);
      ClassifiedPlus(One(ms[0], fates[0]), Listing(ms[1..], fates[1..]));
      ClassifiedOne(ms[0], fates[0]);
      assert Ids(ms) == [ms[0].id] + Ids(ms[1..]);
      MultisetConcat([ms[0].id], Ids(ms[1..]));
    }
  }

  lemma ClassifiedOne(m: Row, f: Fate)
    ensures Classified(One(m, f)) == multiset([m.id])
  {
    assert Ids([m]) == [m.id] && Ids([]) == [];
    assert FailedIds([(m.id, m.retries)]) == [m.id] && FailedIds([]) == [];
    match f
    case Published => assert One(m, f) == Lists([m.id], [], [], [], []);
    case Failed => assert One(m, f) == Lists([], [(m.id, m.retries)], [], [], []);
    case GaveUp | PreExceeded => assert One(m, f) == Lists([], [], [m], [], []);
    case Deferred | Stranded => assert One(m, f) == Lists([], [], [], [m.id], []);
    case Aborted => assert One(m, f) == Lists([], [], [], [], [m]);
  }

  /** The five lists together hold every message of the batch exactly once. */
  lemma {:induction false} SerialPartitions(cfg: Config, w: World, ms: seq<Row>, p: PolicyState, n: nat)
    ensures Classified(Listing(ms, Fates(cfg, w, ms, p, n).fates)) == multiset(Ids(ms))
  {
    ListingPartitions(ms, Fates(cfg, w, ms, p, n).fates);
  }

  /** `a` is what remains of `b` when some elements are left out. */
  predicate Subsequence(a: seq<nat>, b: seq<nat>) {
    a == [] || (b != [] && ((a[0] == b[0] && Subsequence(a[1..], b[1..])) || Subsequence(a, b[1..])))
  }

  function Picked(ms: seq<Row>, fates: seq<Fate>, which: set<Fate>): seq<nat>
    requires |ms| == |fates|
  {
    if ms == [] then []
    else (if fates[0] in which then [ms[0].id] else []) + Picked(ms[1..], fates[1..], which)
  }

  lemma {:induction false} PickedInOrder(ms: seq<Row>, fates: seq<Fate>, which: set<Fate>)
    requires |ms| == |fates|
    ensures Subsequence(Picked(ms, fates, which), Ids(ms))
    decreases |ms|
  {
    if ms != [] {
      PickedInOrder(ms[1..], fates[1..], which);
      assert Ids(ms)[1..] == Ids(ms[1..]);
      if fates[0] in which {
        assert Picked(ms, fates, which)[1..] == Picked(ms[1..], fates[1..], which);
      } else {
        assert Picked(ms, fates, which) == Picked(ms[1..], fates[1..], which);
      }
    }
  }

  lemma {:induction false} PickedFromBatch(ms: seq<Row>, fates: seq<Fate>, which: set<Fate>)
    requires |ms| == |fates|
    ensures forall id :: id in Picked(ms, fates, which) ==> exists m :: m in ms && m.id == id
    decreases |ms|
  {
    if ms != [] {
      PickedFromBatch(ms[1..], fates[1..], which);
      assert ms == [ms[0]] + ms[1..];
    }
  }

  lemma {:induction false} ListingPicks(ms: seq<Row>, fates: seq<Fate>)
    requires |ms| == |fates|
    ensures Listing(ms, fates).published == Picked(ms, fates, {Published})
    ensures Listing(ms, fates).deferred == Picked(ms, fates, {Deferred, Stranded})
    decreases |ms|
  {
    if ms != [] { ListingPicks(ms[1..], fates[1..]); }
  }

  lemma {:induction false} ListingPicksFailed(ms: seq<Row>, fates: seq<Fate>)
    requires |ms| == |fates|
    ensures FailedIds(Listing(ms, fates).failed) == Picked(ms, fates, {Failed})
    decreases |ms|
  {
    if ms != [] {
      ListingPicksFailed(ms[1..], fates[1..]);
      var one, rest := One(ms[0], fates[0]), Listing(ms[1..], fates[1..]);
      assert FailedIds(one.failed + rest.failed) == FailedIds(one.failed) + FailedIds(rest.failed);
    }
  }

  lemma {:induction false} ListingPicksExceeded(ms: seq<Row>, fates: seq<Fate>)
    requires |ms| == |fates|
    ensures Ids(Listing(ms, fates).exceeded) == Picked(ms, fates, {GaveUp, PreExceeded})
    decreases |ms|
  {
    if ms != [] {
      ListingPicksExceeded(ms[1..], fates[1..]);
      IdsAppend(One(ms[0], fates[0]).exceeded, Listing(ms[1..], fates[1..]).exceeded);
      assert Ids([ms[0]]) == [ms[0].id];
    }
  }

  lemma {:induction false} ListingPicksAborted(ms: seq<Row>, fates: seq<Fate>)
    requires |ms| == |fates|
    ensures Ids(Listing(ms, fates).aborted) == Picked(ms, fates, {Aborted})
    decreases |ms|
  {
    if ms != [] {
      ListingPicksAborted(ms[1..], fates[1..]);
      IdsAppend(One(ms[0], fates[0]).aborted, Listing(ms[1..], fates[1..]).aborted);
      assert Ids([ms[0]]) == [ms[0].id];
    }
  }

  /** Each of the five lists is in batch order. */
  lemma {:induction false} SerialListsInBatchOrder(ms: seq<Row>, fates: seq<Fate>)
    requires |ms| == |fates|
    ensures var l := Listing(ms, fates);
            && Subsequence(l.published, Ids(ms))
            && Subsequence(FailedIds(l.failed), Ids(ms))
            && Subsequence(Ids(l.exceeded), Ids(ms))
            && Subsequence(l.deferred, Ids(ms))
            && Subsequence(Ids(l.aborted), Ids(ms))
  {
    ListingPicks(ms, fates);
    ListingPicksFailed(ms, fates);
    ListingPicksExceeded(ms, fates);
    ListingPicksAborted(ms, fates);
    PickedInOrder(ms, fates, {Published});
    PickedInOrder(ms, fates, {Failed});
    PickedInOrder(ms, fates, {GaveUp, PreExceeded});
    PickedInOrder(ms, fates, {Deferred, Stranded});
    PickedInOrder(ms, fates, {Aborted});
  }

  /** What the deadline cuts off is the end of the batch, all of it and nothing else. */
  lemma {:induction false} AbortedIsASuffix(cfg: Config, w: World, ms: seq<Row>, p: PolicyState, n: nat)
    ensures var l := Listing(ms, Fates(cfg, w, ms, p, n).fates);
            |l.aborted| <= |ms| && l.aborted == ms[|ms| - |l.aborted|..]
    decreases |ms|
  {
    if ms != [] {
      var t := Fates(cfg, w, ms, p, n);
      var q := Hear(cfg, w, p, n);
      if q.DeadlineExceeded(w.clock(n)) {
        AllAborted(ms, t.fates);
      } else {
        var rest := ms[1..];
        if ms[0].retries < cfg.maxRetries && w.attempt(ms[0].id).BrokerDown? && Hear(cfg, w, q, n + 1).Trips() {
          assert t.fates[1..] == BreakerFates(cfg, rest);
          NoneAborted(rest, t.fates[1..]);
        } else if ms[0].retries < cfg.maxRetries && w.attempt(ms[0].id).BrokerDown? {
          var s := Hear(cfg, w, q, n + 1).Failed(w.clock(n + 1), cfg.cooldown);
          assert t.fates[1..] == Fates(cfg, w, rest, s, n + 2).fates;
          AbortedIsASuffix(cfg, w, rest, s, n + 2);
        } else {
          var s := if ms[0].retries < cfg.maxRetries && w.attempt(ms[0].id).Accepted? then q.Succeeded() else q;
          assert t.fates[1..] == Fates(cfg, w, rest, s, n + 1).fates;
          AbortedIsASuffix(cfg, w, rest, s, n + 1);
        }
      }
    }
  }

  lemma {:induction false} AllAborted(ms: seq<Row>, fates: seq<Fate>)
    requires |ms| == |fates| && forall i :: 0 <= i < |ms| ==> fates[i] == Aborted
    ensures Listing(ms, fates) == NOTHING.(aborted := ms)
    decreases |ms|
  {
    if ms != [] { AllAborted(ms[1..], fates[1..]); }
  }

  lemma {:induction false} NoneAborted(ms: seq<Row>, fates: seq<Fate>)
    requires |ms| == |fates| && forall i :: 0 <= i < |ms| ==> fates[i] != Aborted
    ensures Listing(ms, fates).aborted == []
    decreases |ms|
  {
    if ms != [] { NoneAborted(ms[1..], fates[1..]); }
  }

  // ---- A lawful account -------------------------------------------------------------------

  predicate WasTried(f: Fate) { f in {Published, Failed, GaveUp, Deferred} }

  /** The fate follows from the message's retries and, if it was tried, its attempt. */
  predicate Fits(cfg: Config, w: World, m: Row, f: Fate) {
    match f
    case Published => m.retries < cfg.maxRetries && w.attempt(m.id).Accepted?
    case Failed => m.retries < cfg.maxRetries - 1 && w.attempt(m.id).Refused?
    case GaveUp => m.retries == cfg.maxRetries - 1 && w.attempt(m.id).Refused?
    case PreExceeded => m.retries >= cfg.maxRetries
    case Deferred => m.retries < cfg.maxRetries && w.attempt(m.id).BrokerDown?
    case Stranded => m.retries < cfg.maxRetries
    case Aborted => true
  }

  lemma {:induction false} FatesFit(cfg: Config, w: World, ms: seq<Row>, p: PolicyState, n: nat)
    requires cfg.Valid()
    ensures forall i :: 0 <= i < |ms| ==> Fits(cfg, w, ms[i], Fates(cfg, w, ms, p, n).fates[i])
    decreases |ms|
  {
    if ms != [] {
      var q := Hear(cfg, w, p, n);
      var s := Hear(cfg, w, q, n + 1).Failed(w.clock(n + 1), cfg.cooldown);
      FatesFit(cfg, w, ms[1..], q, n + 1);
      FatesFit(cfg, w, ms[1..], q.Succeeded(), n + 1);
      FatesFit(cfg, w, ms[1..], s, n + 2);
      var t := Fates(cfg, w, ms, p, n);
      forall i | 0 <= i < |ms| ensures Fits(cfg, w, ms[i], t.fates[i]) {
        if i > 0 {
          assert ms[i] == ms[1..][i - 1] && t.fates[i] == t.fates[1..][i - 1];
        }
      }
    }
  }

  function Attempts(w: World, ms: seq<Row>, fates: seq<Fate>): map<nat, Attempt>
    requires |ms| == |fates|
  {
    map i | 0 <= i < |ms| && WasTried(fates[i]) :: ms[i].id := w.attempt(ms[i].id)
  }

  /** A serial batch accounts lawfully for its attempts: nothing that was sent is reported
      as unsent or twice, nothing unsent is reported as sent. */
  lemma {:induction false} SerialIsLawful(cfg: Config, w: World, ms: seq<Row>, p: PolicyState, n: nat)
    requires cfg.Valid() && UniqueIds(ms)
    ensures var fates := Fates(cfg, w, ms, p, n).fates;
            Lawful(cfg, ms, Attempts(w, ms, fates), Listing(ms, fates))
  {
    var fates := Fates(cfg, w, ms, p, n).fates;
    FatesFit(cfg, w, ms, p, n);
    ListingPartitions(ms, fates);
    FittingFatesAreLawful(cfg, w, ms, fates);
  }

  lemma FittingFatesAreLawful(cfg: Config, w: World, ms: seq<Row>, fates: seq<Fate>)
    requires |ms| == |fates| && UniqueIds(ms)
    requires forall i :: 0 <= i < |ms| ==> Fits(cfg, w, ms[i], fates[i])
    requires Classified(Listing(ms, fates)) == multiset(Ids(ms))
    ensures Lawful(cfg, ms, Attempts(w, ms, fates), Listing(ms, fates))
  {
    var attempts, l := Attempts(w, ms, fates), Listing(ms, fates);
    forall id | id in attempts ensures id in (set m | m in ms :: m.id) {
      var i :| 0 <= i < |ms| && WasTried(fates[i]) && ms[i].id == id;
      assert ms[i] in ms;
    }
    ListingRows(ms, fates);
    forall m | m in ms ensures Justified(cfg, attempts, l, m) {
      var i :| 0 <= i < |ms| && ms[i] == m;
      FittingFateIsJustified(cfg, w, ms, fates, i);
    }
  }

  lemma FittingFateIsJustified(cfg: Config, w: World, ms: seq<Row>, fates: seq<Fate>, i: nat)
    requires |ms| == |fates| && UniqueIds(ms) && i < |ms| && Fits(cfg, w, ms[i], fates[i])
    ensures Justified(cfg, Attempts(w, ms, fates), Listing(ms, fates), ms[i])
  {
    ListingHas(ms, fates, i);
    ListingOnly(ms, fates, i);
    assert ms[i].id in Attempts(w, ms, fates) <==> WasTried(fates[i]);
  }

  lemma {:induction false} ListingRows(ms: seq<Row>, fates: seq<Fate>)
    requires |ms| == |fates|
    ensures forall m :: m in Listing(ms, fates).exceeded ==> m in ms
    decreases |ms|
  {
    if ms != [] { ListingRows(ms[1..], fates[1..]); }
  }

  lemma {:induction false} ListingHas(ms: seq<Row>, fates: seq<Fate>, i: nat)
    requires |ms| == |fates| && i < |ms|
    ensures var l := Listing(ms, fates); var m := ms[i];
            match fates[i]
            case Published => m.id in l.published
            case Failed => (m.id, m.retries) in l.failed
            case GaveUp | PreExceeded => m in l.exceeded
            case Deferred | Stranded => m.id in l.deferred
            case Aborted => m in l.aborted
    decreases |ms|
  {
    if i > 0 { ListingHas(ms[1..], fates[1..], i - 1); }
  }

  lemma ListingOnly(ms: seq<Row>, fates: seq<Fate>, i: nat)
    requires |ms| == |fates| && i < |ms| && UniqueIds(ms)
    ensures var l := Listing(ms, fates); var m := ms[i];
            && (m.id in l.published ==> fates[i] == Published)
            && (m.id in FailedIds(l.failed) ==> fates[i] == Failed)
            && (m.id in l.deferred ==> fates[i] in {Deferred, Stranded})
            && (m in l.exceeded ==> fates[i] in {GaveUp, PreExceeded})
  {
    ListingPicks(ms, fates);
    ListingPicksFailed(ms, fates);
    ListingPicksExceeded(ms, fates);
    PickedOnly(ms, fates, {Published}, i);
    PickedOnly(ms, fates, {Failed}, i);
    PickedOnly(ms, fates, {Deferred, Stranded}, i);
    PickedOnly(ms, fates, {GaveUp, PreExceeded}, i);
    Listed(Listing(ms, fates), ms[i]);
  }

  lemma {:induction false} PickedOnly(ms: seq<Row>, fates: seq<Fate>, which: set<Fate>, i: nat)
    requires |ms| == |fates| && i < |ms| && UniqueIds(ms)
    ensures ms[i].id in Picked(ms, fates, which) ==> fates[i] in which
    decreases |ms|
  {
    var id := ms[i].id;
    if i == 0 {
      PickedFromBatch(ms[1..], fates[1..], which);
      forall m | m in ms[1..] ensures m.id != id {
        var j :| 0 <= j < |ms[1..]| && ms[1..][j] == m;
        assert ms[j + 1] == m;
      }
      if fates[0] !in which {
        assert Picked(ms, fates, which) == Picked(ms[1..], fates[1..], which);
      }
    } else {
      assert ms[1..][i - 1] == ms[i];
      PickedOnly(ms[1..], fates[1..], which, i - 1);
    }
  }

  // ---- The policy's view --------------------------------------------------------------------

  /** The policy ends where its own history of calls puts it. */
  lemma {:induction false} SerialPolicyIsHistory(cfg: Config, w: World, ms: seq<Row>, p: PolicyState, n: nat)
    ensures var t := Fates(cfg, w, ms, p, n); t.policy == After(cfg, p, t.events)
    decreases |ms|
  {
    if ms != [] {
      var t := Fates(cfg, w, ms, p, n);
      var heard := SignalEvents(w.signals(n));
      var q := Hear(cfg, w, p, n);
      HearIsHistory(cfg, p, w.signals(n));
      var r := Hear(cfg, w, q, n + 1);
      HearIsHistory(cfg, q, w.signals(n + 1));
      AfterConcat(cfg, p, heard, SignalEvents(w.signals(n + 1)));
      if q.DeadlineExceeded(w.clock(n)) {
      } else if ms[0].retries < cfg.maxRetries && w.attempt(ms[0].id).Accepted? {
        AfterOne(cfg, p, heard, Sent);
        SerialPolicyIsHistory(cfg, w, ms[1..], q.Succeeded(), n + 1);
        AfterConcat(cfg, p, heard + [Sent], Fates(cfg, w, ms[1..], q.Succeeded(), n + 1).events);
      } else if ms[0].retries < cfg.maxRetries && w.attempt(ms[0].id).BrokerDown? {
        var now := w.clock(n + 1);
        var s := r.Failed(now, cfg.cooldown);
        var both := heard + SignalEvents(w.signals(n + 1));
        AfterOne(cfg, p, both, Event.Outage(now));
        SerialPolicyIsHistory(cfg, w, ms[1..], s, n + 2);
        AfterConcat(cfg, p, both + [Event.Outage(now)], Fates(cfg, w, ms[1..], s, n + 2).events);
      } else {
        SerialPolicyIsHistory(cfg, w, ms[1..], q, n + 1);
        AfterConcat(cfg, p, heard, Fates(cfg, w, ms[1..], q, n + 1).events);
      }
    }
  }

  lemma AfterOne(cfg: Config, p: PolicyState, h: seq<Event>, e: Event)
    ensures After(cfg, p, h + [e]) == Apply(cfg, After(cfg, p, h), e)
  {
    assert (h + [e])[..|h|] == h;
  }

  // ---- The same batch as a running account ----------------------------------------------------

  function PublishFate(cfg: Config, w: World, m: Row): Fate {
    match w.attempt(m.id)
    case Accepted => Published
    case Refused(_) => RefusedFate(cfg, m)
    case BrokerDown(_) => Deferred
  }

  function PublishPolicy(cfg: Config, w: World, m: Row, p: PolicyState, n: nat): PolicyState {
    match w.attempt(m.id)
    case Accepted => p.Succeeded()
    case Refused(_) => p
    case BrokerDown(_) => Hear(cfg, w, p, n).Failed(w.clock(n), cfg.cooldown)
  }

  function PublishReadings(w: World, m: Row, n: nat): nat {
    if w.attempt(m.id).BrokerDown? then n + 1 else n
  }

  predicate PublishTrips(cfg: Config, w: World, m: Row, p: PolicyState, n: nat) {
    w.attempt(m.id).BrokerDown? && Hear(cfg, w, p, n).Trips()
  }

  datatype Account = Account(lists: Lists, policy: PolicyState, readings: nat)

  function PassedOver(cfg: Config, w: World, m: Row, acc: Account): Account {
    Account(Plus(acc.lists, One(m, PreExceeded)), Hear(cfg, w, acc.policy, acc.readings), acc.readings + 1)
  }

  function Tried(cfg: Config, w: World, m: Row, acc: Account): Account {
    var q, n := Hear(cfg, w, acc.policy, acc.readings), acc.readings + 1;
    Account(Plus(acc.lists, One(m, PublishFate(cfg, w, m))), PublishPolicy(cfg, w, m, q, n), PublishReadings(w, m, n))
  }

  /** How one turn of the loop leaves it. */
  datatype Verdict = GoOn | CutOff | Tripped

  /** One turn of the loop, up to the point where it may leave the loop. */
  function Taken(cfg: Config, w: World, m: Row, acc: Account): (Account, Verdict) {
    var q, n := Hear(cfg, w, acc.policy, acc.readings), acc.readings;
    if q.DeadlineExceeded(w.clock(n)) then (Account(acc.lists, q, n + 1), CutOff)
    else if m.retries >= cfg.maxRetries then (PassedOver(cfg, w, m, acc), GoOn)
    else (Tried(cfg, w, m, acc), if PublishTrips(cfg, w, m, q, n + 1) then Tripped else GoOn)
  }

  /** What the loop ends with when it still has `ms` to do and its lists are `acc.lists`. */
  function Final(cfg: Config, w: World, ms: seq<Row>, acc: Account): Account
    decreases |ms|
  {
    if ms == [] then acc
    else
      var (next, verdict) := Taken(cfg, w, ms[0], acc);
      match verdict
      case CutOff => next.(lists := next.lists.(aborted := next.lists.aborted + ms))
      case Tripped => next.(lists := AddStranded(cfg, next.lists, ms[1..]))
      case GoOn => Final(cfg, w, ms[1..], next)
  }

  lemma {:induction false} StrandedListing(cfg: Config, l: Lists, ms: seq<Row>)
    ensures AddStranded(cfg, l, ms) == Plus(l, Listing(ms, BreakerFates(cfg, ms)))
    decreases |ms|
  {
    if ms == [] {
      PlusNothing(l);
    } else {
      var one := One(ms[0], BreakerFate(cfg, ms[0]));
      StrandedListing(cfg, Plus(l, one), ms[1..]);
      assert BreakerFates(cfg, ms)[1..] == BreakerFates(cfg, ms[1..]);
      PlusAssociates(l, one, Listing(ms[1..], BreakerFates(cfg, ms[1..])));
      PlusExceededOrDeferred(l, ms[0]);
    }
  }

  /** The messages after a trip reach only two of the lists. */
  lemma {:induction false} OnlyStranded(cfg: Config, ms: seq<Row>)
    ensures var l := Listing(ms, BreakerFates(cfg, ms)); l.published == [] && l.failed == [] && l.aborted == []
    decreases |ms|
  {
    if ms != [] {
      assert BreakerFates(cfg, ms)[1..] == BreakerFates(cfg, ms[1..]);
      OnlyStranded(cfg, ms[1..]);
    }
  }

  lemma OnlyTwoListsGrow(cfg: Config, l: Lists, ms: seq<Row>)
    ensures var more := Listing(ms, BreakerFates(cfg, ms));
            AddStranded(cfg, l, ms) == l.(exceeded := l.exceeded + more.exceeded,
                                          deferred := l.deferred + more.deferred)
  {
    StrandedListing(cfg, l, ms);
    OnlyStranded(cfg, ms);
  }

  lemma PlusExceededOrDeferred(l: Lists, m: Row)
    ensures AddExceeded(l, m) == Plus(l, AddExceeded(NOTHING, m))
    ensures AddDeferred(l, m) == Plus(l, AddDeferred(NOTHING, m))
  {
  }

  /** One step of `Fates`, in the terms of the running account. */
  lemma {:induction false} FatesStep(cfg: Config, w: World, ms: seq<Row>, p: PolicyState, n: nat)
    requires ms != []
    ensures var m, q, t := ms[0], Hear(cfg, w, p, n), Fates(cfg, w, ms, p, n);
            var p', n' := PublishPolicy(cfg, w, m, q, n + 1), PublishReadings(w, m, n + 1);
            if q.DeadlineExceeded(w.clock(n)) then
              t.policy == q && t.readings == n + 1 && forall i :: 0 <= i < |ms| ==> t.fates[i] == Aborted
            else if m.retries >= cfg.maxRetries then
              var u := Fates(cfg, w, ms[1..], q, n + 1);
              t.fates == [PreExceeded] + u.fates && t.policy == u.policy && t.readings == u.readings
            else if PublishTrips(cfg, w, m, q, n + 1) then
              t.fates == [PublishFate(cfg, w, m)] + BreakerFates(cfg, ms[1..]) && t.policy == p' && t.readings == n'
            else
              var u := Fates(cfg, w, ms[1..], p', n');
              t.fates == [PublishFate(cfg, w, m)] + u.fates && t.policy == u.policy && t.readings == u.readings
  {
  }

  lemma TrippedAccount(cfg: Config, l: Lists, m: Row, f: Fate, rest: seq<Row>)
    ensures AddStranded(cfg, Plus(l, One(m, f)), rest) == Plus(l, Listing([m] + rest, [f] + BreakerFates(cfg, rest)))
  {
    StrandedListing(cfg, Plus(l, One(m, f)), rest);
    ListingHead(l, m, f, rest, BreakerFates(cfg, rest));
  }

  /** One step of `Final`. */
  lemma {:induction false} FinalStep(cfg: Config, w: World, ms: seq<Row>, acc: Account)
    requires ms != []
    ensures var m, q, n, r := ms[0], Hear(cfg, w, acc.policy, acc.readings), acc.readings, Final(cfg, w, ms, acc);
            if q.DeadlineExceeded(w.clock(n)) then r == Account(acc.lists.(aborted := acc.lists.aborted + ms), q, n + 1)
            else if m.retries >= cfg.maxRetries then r == Final(cfg, w, ms[1..], PassedOver(cfg, w, m, acc))
            else
              var next := Tried(cfg, w, m, acc);
              if PublishTrips(cfg, w, m, q, n + 1) then r == next.(lists := AddStranded(cfg, next.lists, ms[1..]))
              else r == Final(cfg, w, ms[1..], next)
  {
  }

  lemma {:induction false} FatesAfterTrying(cfg: Config, w: World, ms: seq<Row>, acc: Account)
    requires ms != [] && ms[0].retries < cfg.maxRetries
    requires var q := Hear(cfg, w, acc.policy, acc.readings);
             !q.DeadlineExceeded(w.clock(acc.readings)) && !PublishTrips(cfg, w, ms[0], q, acc.readings + 1)
    ensures var next := Tried(cfg, w, ms[0], acc);
            var t, u := Fates(cfg, w, ms, acc.policy, acc.readings), Fates(cfg, w, ms[1..], next.policy, next.readings);
            t.fates == [PublishFate(cfg, w, ms[0])] + u.fates && t.policy == u.policy && t.readings == u.readings
  {
    FatesStep(cfg, w, ms, acc.policy, acc.readings);
  }

  lemma ListingHead(l: Lists, m: Row, f: Fate, rest: seq<Row>, fates: seq<Fate>)
    requires |rest| == |fates|
    ensures Plus(Plus(l, One(m, f)), Listing(rest, fates)) == Plus(l, Listing([m] + rest, [f] + fates))
  {
    assert ([m] + rest)[1..] == rest && ([f] + fates)[1..] == fates;
    PlusAssociates(l, One(m, f), Listing(rest, fates));
  }

  ghost predicate Agrees(r: Account, l: Lists, ms: seq<Row>, fates: seq<Fate>, policy: PolicyState, readings: nat) {
    |ms| == |fates| && r == Account(Plus(l, Listing(ms, fates)), policy, readings)
  }

  /** A message's fate goes in front of what the rest agrees on. */
  lemma AgreesThen(r: Account, l: Lists, m: Row, f: Fate, rest: seq<Row>, fates: seq<Fate>, policy: PolicyState,
                   readings: nat)
    requires Agrees(r, Plus(l, One(m, f)), rest, fates, policy, readings)
    ensures Agrees(r, l, [m] + rest, [f] + fates, policy, readings)
  {
    ListingHead(l, m, f, rest, fates);
  }

  lemma AbortedAgrees(l: Lists, ms: seq<Row>, fates: seq<Fate>, policy: PolicyState, readings: nat)
    requires |ms| == |fates| && forall i :: 0 <= i < |ms| ==> fates[i] == Aborted
    ensures Agrees(Account(l.(aborted := l.aborted + ms), policy, readings), l, ms, fates, policy, readings)
  {
    AllAborted(ms, fates);
  }

  ghost predicate FinalAgrees(cfg: Config, w: World, ms: seq<Row>, acc: Account) {
    var t := Fates(cfg, w, ms, acc.policy, acc.readings);
    Agrees(Final(cfg, w, ms, acc), acc.lists, ms, t.fates, t.policy, t.readings)
  }

  lemma {:induction false} FinalAborts(cfg: Config, w: World, ms: seq<Row>, acc: Account)
    requires ms != [] && Hear(cfg, w, acc.policy, acc.readings).DeadlineExceeded(w.clock(acc.readings))
    ensures FinalAgrees(cfg, w, ms, acc)
  {
    FatesStep(cfg, w, ms, acc.policy, acc.readings);
    AbortedAgrees(acc.lists, ms, Fates(cfg, w, ms, acc.policy, acc.readings).fates,
                  Hear(cfg, w, acc.policy, acc.readings), acc.readings + 1);
  }

  lemma {:induction false} FinalTrips(cfg: Config, w: World, ms: seq<Row>, acc: Account)
    requires ms != [] && ms[0].retries < cfg.maxRetries
    requires var q := Hear(cfg, w, acc.policy, acc.readings);
             !q.DeadlineExceeded(w.clock(acc.readings)) && PublishTrips(cfg, w, ms[0], q, acc.readings + 1)
    ensures FinalAgrees(cfg, w, ms, acc)
  {
    assert ms == [ms[0]] + ms[1..];
    FatesStep(cfg, w, ms, acc.policy, acc.readings);
    FinalStep(cfg, w, ms, acc);
    TrippedAccount(cfg, acc.lists, ms[0], PublishFate(cfg, w, ms[0]), ms[1..]);
  }

  /** The message ends as `f` and the loop goes on with `next`. */
  lemma {:induction false} FinalGoesOn(cfg: Config, w: World, ms: seq<Row>, acc: Account, f: Fate, next: Account)
    requires ms != [] && FinalAgrees(cfg, w, ms[1..], next) && next.lists == Plus(acc.lists, One(ms[0], f))
    requires Final(cfg, w, ms, acc) == Final(cfg, w, ms[1..], next)
    requires var t, u := Fates(cfg, w, ms, acc.policy, acc.readings),
             Fates(cfg, w, ms[1..], next.policy, next.readings);
             t.fates == [f] + u.fates && t.policy == u.policy && t.readings == u.readings
    ensures FinalAgrees(cfg, w, ms, acc)
  {
    assert ms == [ms[0]] + ms[1..];
    var u := Fates(cfg, w, ms[1..], next.policy, next.readings);
    AgreesThen(Final(cfg, w, ms[1..], next), acc.lists, ms[0], f, ms[1..], u.fates, u.policy, u.readings);
  }

  lemma {:induction false} FinalPassesOver(cfg: Config, w: World, ms: seq<Row>, acc: Account)
    requires ms != [] && ms[0].retries >= cfg.maxRetries && FinalAgrees(cfg, w, ms[1..], PassedOver(cfg, w, ms[0], acc))
    requires !Hear(cfg, w, acc.policy, acc.readings).DeadlineExceeded(w.clock(acc.readings))
    ensures FinalAgrees(cfg, w, ms, acc)
  {
    FatesStep(cfg, w, ms, acc.policy, acc.readings);
    FinalStep(cfg, w, ms, acc);
    FinalGoesOn(cfg, w, ms, acc, PreExceeded, PassedOver(cfg, w, ms[0], acc));
  }

  lemma {:induction false} FinalTries(cfg: Config, w: World, ms: seq<Row>, acc: Account)
    requires ms != [] && ms[0].retries < cfg.maxRetries && FinalAgrees(cfg, w, ms[1..], Tried(cfg, w, ms[0], acc))
    requires var q := Hear(cfg, w, acc.policy, acc.readings);
             !q.DeadlineExceeded(w.clock(acc.readings)) && !PublishTrips(cfg, w, ms[0], q, acc.readings + 1)
    ensures FinalAgrees(cfg, w, ms, acc)
  {
    FatesAfterTrying(cfg, w, ms, acc);
    FinalStep(cfg, w, ms, acc);
    FinalGoesOn(cfg, w, ms, acc, PublishFate(cfg, w, ms[0]), Tried(cfg, w, ms[0], acc));
  }

  /** The running account comes to the lists of the fates. */
  lemma {:induction false} FinalIsFates(cfg: Config, w: World, ms: seq<Row>, acc: Account)
    ensures FinalAgrees(cfg, w, ms, acc)
    decreases |ms|
  {
    if ms == [] {
      PlusNothing(acc.lists);
    } else if Hear(cfg, w, acc.policy, acc.readings).DeadlineExceeded(w.clock(acc.readings)) {
      FinalAborts(cfg, w, ms, acc);
    } else if ms[0].retries >= cfg.maxRetries {
      FinalIsFates(cfg, w, ms[1..], PassedOver(cfg, w, ms[0], acc));
      FinalPassesOver(cfg, w, ms, acc);
    } else if PublishTrips(cfg, w, ms[0], Hear(cfg, w, acc.policy, acc.readings), acc.readings + 1) {
      FinalTrips(cfg, w, ms, acc);
    } else {
      FinalIsFates(cfg, w, ms[1..], Tried(cfg, w, ms[0], acc));
      FinalTries(cfg, w, ms, acc);
    }
  }
}
