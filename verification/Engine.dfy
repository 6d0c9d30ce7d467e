/** What the serial and the parallel batch loop share: the world they run against, the
    five result lists, and what any result may say about a message. */
module Engine {
  import opened Types
  import opened Policy

  datatype Stage = Preparing | Sending

  /** How the attempt to publish one message ends, and whether it was building the call or
      sending it that failed. `BrokerDown` is what `is_broker_outage` recognises. */
  datatype Attempt =
    | Accepted
    | BrokerDown(stage: Stage)
    | Refused(stage: Stage)

  /** Everything the loops do not decide themselves. `clock(n)` is the n-th reading of the
      monotonic clock and `signals(n)` the shutdown signals handled just before it;
      `first(d)` and `done(d, id)` say which sends the d-th drain finds finished. */
  datatype World = World(
    clock: nat -> real,
    signals: nat -> seq<real>,
    attempt: nat -> Attempt,
    first: nat -> nat,
    done: (nat, nat) -> bool)

  datatype Lists = Lists(
    published: seq<nat>,
    failed: seq<(nat, nat)>,
    exceeded: seq<Row>,
    deferred: seq<nat>,
    aborted: seq<Row>)

  const NOTHING := Lists([], [], [], [], [])

  function Plus(a: Lists, b: Lists): Lists {
    Lists(a.published + b.published, a.failed + b.failed, a.exceeded + b.exceeded,
          a.deferred + b.deferred, a.aborted + b.aborted)
  }

  function FailedIds(failed: seq<(nat, nat)>): (ids: seq<nat>)
    ensures |ids| == |failed|
    ensures forall i :: 0 <= i < |ids| ==> ids[i] == failed[i].0
  {
    seq(|failed|, i requires 0 <= i < |failed| => failed[i].0)
  }

  /** Every id the lists mention, as often as they mention it. */
  function Classified(l: Lists): multiset<nat> {
    multiset(l.published) + multiset(FailedIds(l.failed)) + multiset(Ids(l.exceeded))
    + multiset(l.deferred) + multiset(Ids(l.aborted))
  }

  lemma ClassifiedPlus(a: Lists, b: Lists)
    ensures Classified(Plus(a, b)) == Classified(a) + Classified(b)
  {
    IdsAppend(a.exceeded, b.exceeded);
    IdsAppend(a.aborted, b.aborted);
    assert FailedIds(a.failed + b.failed) == FailedIds(a.failed) + FailedIds(b.failed);
    MultisetConcat(a.published, b.published);
    MultisetConcat(FailedIds(a.failed), FailedIds(b.failed));
    MultisetConcat(Ids(a.exceeded), Ids(b.exceeded));
    MultisetConcat(a.deferred, b.deferred);
    MultisetConcat(Ids(a.aborted), Ids(b.aborted));
    Regroup(multiset(a.published), multiset(FailedIds(a.failed)), multiset(Ids(a.exceeded)), multiset(a.deferred),
            multiset(Ids(a.aborted)),
            multiset(b.published), multiset(FailedIds(b.failed)), multiset(Ids(b.exceeded)), multiset(b.deferred),
                multiset(Ids(b.aborted)));
  }

  lemma Regroup(a1: multiset<nat>, a2: multiset<nat>, a3: multiset<nat>, a4: multiset<nat>, a5: multiset<nat>,
                b1: multiset<nat>, b2: multiset<nat>, b3: multiset<nat>, b4: multiset<nat>, b5: multiset<nat>)
    ensures (a1 + b1) + (a2 + b2) + (a3 + b3) + (a4 + b4) + (a5 + b5)
            == (a1 + a2 + a3 + a4 + a5) + (b1 + b2 + b3 + b4 + b5)
  {
  }

  lemma MultisetConcat(a: seq<nat>, b: seq<nat>)
    ensures multiset(a + b) == multiset(a) + multiset(b)
  {
  }

  lemma PlusNothing(l: Lists)
    ensures Plus(NOTHING, l) == l && Plus(l, NOTHING) == l
  {
  }

  lemma PlusAssociates(a: Lists, b: Lists, c: Lists)
    ensures Plus(Plus(a, b), c) == Plus(a, Plus(b, c))
  {
  }

  /** The deadline check that stopped a batch: the clock reading it used, how many events the
      policy had been told of when it was made, and the messages that were not yet taken. */
  datatype Sighting = Sighting(reading: nat, told: nat, left: seq<Row>)

  // ---- One message at a time ----------------------------------------------------------

  function AddPublished(l: Lists, m: Row): Lists { l.(published := l.published + [m.id]) }
  function AddDeferred(l: Lists, m: Row): Lists { l.(deferred := l.deferred + [m.id]) }
  function AddExceeded(l: Lists, m: Row): Lists { l.(exceeded := l.exceeded + [m]) }

  /** `_classify_breaker_remaining_messages` */
  function AddStranded(cfg: Config, l: Lists, ms: seq<Row>): Lists
    decreases |ms|
  {
    if ms == [] then l
    else AddStranded(cfg, if ms[0].retries >= cfg.maxRetries then AddExceeded(l, ms[0]) else AddDeferred(l, ms[0]),
                     ms[1..])
  }

  // ---- Signals ------------------------------------------------------------------------

  function HearAll(cfg: Config, p: PolicyState, at: seq<real>): PolicyState
    decreases |at|
  {
    if at == [] then p else HearAll(cfg, p.Signalled(at[0], cfg.shutdownTimeout), at[1..])
  }

  function Hear(cfg: Config, w: World, p: PolicyState, n: nat): PolicyState {
    HearAll(cfg, p, w.signals(n))
  }

  lemma {:induction false} HearKeepsBreaker(cfg: Config, p: PolicyState, at: seq<real>)
    ensures HearAll(cfg, p, at).outageStreak == p.outageStreak
    ensures HearAll(cfg, p, at).breakerOpenUntil == p.breakerOpenUntil
    decreases |at|
  {
    if at != [] { HearKeepsBreaker(cfg, p.Signalled(at[0], cfg.shutdownTimeout), at[1..]); }
  }

  function SignalEvents(at: seq<real>): (h: seq<Event>)
    ensures |h| == |at|
    ensures forall i :: 0 <= i < |h| ==> h[i] == Signal(at[i])
  {
    seq(|at|, i requires 0 <= i < |at| => Signal(at[i]))
  }

  lemma {:induction false} HearIsHistory(cfg: Config, p: PolicyState, at: seq<real>)
    ensures HearAll(cfg, p, at) == After(cfg, p, SignalEvents(at))
    decreases |at|
  {
    if at != [] {
      HearIsHistory(cfg, p.Signalled(at[0], cfg.shutdownTimeout), at[1..]);
      assert SignalEvents(at) == [Signal(at[0])] + SignalEvents(at[1..]);
      AfterConcat(cfg, p, [Signal(at[0])], SignalEvents(at[1..]));
      assert [Signal(at[0])][..0] == [];
      assert After(cfg, p, [Signal(at[0])]) == p.Signalled(at[0], cfg.shutdownTimeout);
    }
  }

  /** No shutdown was asked for and none will be. */
  ghost predicate NoShutdown(w: World, p: PolicyState) {
    p.shutdownDeadline.None? && forall n :: w.signals(n) == []
  }

  // ---- What a result may say ------------------------------------------------------------

  /** What the lists must say about one message, given the attempts that were made: an
      attempted one is where its attempt puts it, and one that was not attempted is never
      reported as sent or failed, is given up only past its last retry, and is put off
      only before it. */
  ghost predicate Justified(cfg: Config, attempts: map<nat, Attempt>, l: Lists, m: Row) {
    if m.id in attempts then
      && m.retries < cfg.maxRetries
      && match attempts[m.id]
         case Accepted => m.id in l.published
         case BrokerDown(_) => m.id in l.deferred
         case Refused(_) => if m.retries >= cfg.maxRetries - 1 then m in l.exceeded else (m.id, m.retries) in l.failed
    else
      && m.id !in l.published
      && m.id !in FailedIds(l.failed)
      && (m.id in l.deferred ==> m.retries < cfg.maxRetries)
      && (m in l.exceeded ==> m.retries >= cfg.maxRetries)
  }

  /** The lists are a lawful account of `batch`: only its rows, each at most once, each
      where its attempt puts it. */
  ghost predicate Lawful(cfg: Config, batch: seq<Row>, attempts: map<nat, Attempt>, l: Lists) {
    && attempts.Keys <= (set m | m in batch :: m.id)
    && Classified(l) <= multiset(Ids(batch))
    && (forall m :: m in l.exceeded ==> m in batch)
    && (forall m :: m in batch ==> Justified(cfg, attempts, l, m))
  }

  lemma {:induction false} UniqueIdsOnce(rows: seq<Row>, id: nat)
    requires UniqueIds(rows)
    ensures multiset(Ids(rows))[id] <= 1
    ensures multiset(Ids(rows))[id] == 1 <==> exists m :: m in rows && m.id == id
    decreases |rows|
  {
    if rows != [] {
      assert Ids(rows) == [rows[0].id] + Ids(rows[1..]);
      CountHead(rows[0].id, Ids(rows[1..]), id);
      UniqueIdsOnce(rows[1..], id);
      HasHead(rows, id);
    }
  }

  lemma CountHead(head: nat, rest: seq<nat>, id: nat)
    ensures multiset([head] + rest)[id] == multiset(rest)[id] + if head == id then 1 else 0
  {
  }

  lemma HasHead(rows: seq<Row>, id: nat)
    requires rows != [] && UniqueIds(rows)
    ensures (exists m :: m in rows && m.id == id) <==> rows[0].id == id || exists m :: m in rows[1..] && m.id == id
    ensures rows[0].id == id ==> forall m :: m in rows[1..] ==> m.id != id
  {
    assert rows == [rows[0]] + rows[1..];
    forall m | m in rows[1..] ensures m.id != rows[0].id {
      var j :| 0 <= j < |rows[1..]| && rows[1..][j] == m;
      assert rows[j + 1] == m;
    }
  }

  /** In a lawful account no row is in two lists, and every row is one of the batch. */
  lemma OneList(cfg: Config, batch: seq<Row>, attempts: map<nat, Attempt>, l: Lists, id: nat)
    requires Lawful(cfg, batch, attempts, l) && UniqueIds(batch)
    ensures multiset(FailedIds(l.failed))[id] <= 1
    ensures id in l.published ==>
              id !in FailedIds(l.failed) && id !in Ids(l.exceeded) && id !in l.deferred && id !in Ids(l.aborted)
    ensures id in FailedIds(l.failed) ==> id !in Ids(l.exceeded) && id !in l.deferred && id !in Ids(l.aborted)
    ensures id in Ids(l.exceeded) ==> id !in l.deferred && id !in Ids(l.aborted)
    ensures id in l.deferred ==> id !in Ids(l.aborted)
    ensures id in Classified(l) ==> exists m :: m in batch && m.id == id
  {
    UniqueIdsOnce(batch, id);
    assert Classified(l)[id] <= multiset(Ids(batch))[id];
  }

  lemma Listed(l: Lists, m: Row)
    ensures m in l.exceeded ==> m.id in Ids(l.exceeded)
    ensures (m.id, m.retries) in l.failed ==> m.id in FailedIds(l.failed)
  {
    if m in l.exceeded {
      var i :| 0 <= i < |l.exceeded| && l.exceeded[i] == m;
      assert Ids(l.exceeded)[i] == m.id;
    }
    if (m.id, m.retries) in l.failed {
      var i :| 0 <= i < |l.failed| && l.failed[i] == (m.id, m.retries);
      assert FailedIds(l.failed)[i] == m.id;
    }
  }

  /** What a lawful account tells about one of its rows, read back from the lists. */
  lemma LawfulReadsBack(cfg: Config, batch: seq<Row>, attempts: map<nat, Attempt>, l: Lists, m: Row)
    requires Lawful(cfg, batch, attempts, l) && UniqueIds(batch) && m in batch
    ensures m.id in l.published ==> m.id in attempts && attempts[m.id].Accepted?
    ensures m.id in FailedIds(l.failed) ==>
              m.id in attempts && attempts[m.id].Refused? && m.retries < cfg.maxRetries - 1
    ensures m.id in Ids(l.exceeded) ==> m in l.exceeded
    ensures m.id in Ids(l.exceeded) && m.retries < cfg.maxRetries ==>
              m.id in attempts && attempts[m.id].Refused? && m.retries == cfg.maxRetries - 1
    ensures m.id in l.deferred ==> m.id !in attempts || attempts[m.id].BrokerDown?
  {
    OneList(cfg, batch, attempts, l, m.id);
    Listed(l, m);
    assert Justified(cfg, attempts, l, m);
    if m.id in Ids(l.exceeded) { ExceededIsOwn(batch, l.exceeded, m); }
  }

  lemma ExceededIsOwn(batch: seq<Row>, exceeded: seq<Row>, m: Row)
    requires UniqueIds(batch) && m in batch && m.id in Ids(exceeded) && forall x :: x in exceeded ==> x in batch
    ensures m in exceeded
  {
    var i :| 0 <= i < |Ids(exceeded)| && Ids(exceeded)[i] == m.id;
    assert exceeded[i] in batch;
    assert exceeded[i] == m;
  }

  /** A lawful `failed` entry carries the retry count of the relay's own copy. */
  lemma LawfulFailedRetries(cfg: Config, batch: seq<Row>, attempts: map<nat, Attempt>, l: Lists, i: nat)
    requires Lawful(cfg, batch, attempts, l) && UniqueIds(batch) && i < |l.failed|
    ensures exists m :: m in batch && m.id == l.failed[i].0 && m.retries == l.failed[i].1
  {
    var id := l.failed[i].0;
    var ids := FailedIds(l.failed);
    assert ids[i] == id;
    OneList(cfg, batch, attempts, l, id);
    assert id in Classified(l);
    var m :| m in batch && m.id == id;
    LawfulReadsBack(cfg, batch, attempts, l, m);
    assert (m.id, m.retries) in l.failed;
    var j :| 0 <= j < |l.failed| && l.failed[j] == (m.id, m.retries);
    if i != j {
      TwiceInMultiset(ids, i, j);
    }
  }

  lemma TwiceInMultiset(s: seq<nat>, i: nat, j: nat)
    requires i < |s| && j < |s| && i != j && s[i] == s[j]
    ensures multiset(s)[s[i]] >= 2
  {
    var a, b := if i < j then i else j, if i < j then j else i;
    assert s == s[..b] + [s[b]] + s[b + 1..];
    assert s[a] in s[..b];
  }
}
