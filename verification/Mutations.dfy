/** The bulk updates of the second transaction (django_celery_outbox/relay/_mutations.py):
    each one as the table change it asks the database for, all of them together as what
    happens to one row, and the class that issues them. */
module Mutations {
  import opened Types
  import opened Engine
  import opened Backoff

  // ---- What each bulk change does to the tables ------------------------------------------

  /** The delay the first matching `When` gives; every id of the update has one. */
  function CaseDelay(cfg: Config, failed: seq<(nat, nat)>, jitters: seq<real>, id: nat): real
    requires |jitters| == |failed|
  {
    if failed == [] then 0.0
    else if failed[0].0 == id then Delay(cfg, failed[0].1, jitters[0])
    else CaseDelay(cfg, failed[1..], jitters[1..], id)
  }

  function Bumped(row: Row, now: real, delay: real): Row {
    row.(retries := row.retries + 1, updatedAt := Some(now), retryAfter := Some(now + delay))
  }

  function PutOff(row: Row, now: real, cooldown: real): Row {
    row.(updatedAt := Some(now), retryAfter := Some(now + cooldown))
  }

  const FAILURE_REASON := "max retries exceeded"

  function Buried(m: Row, id: nat, now: real): DeadRow {
    DeadRow(id, m.createdAt, now, m.retries, m.payload, FAILURE_REASON)
  }

  function AfterUpdateFailed(cfg: Config, t: Tables, failed: seq<(nat, nat)>, jitters: seq<real>, now: real): Tables
    requires |jitters| == |failed|
  {
    var ids := FailedIds(failed);
    t.(outbox := map id | id in t.outbox ::
         if id in ids then Bumped(t.outbox[id], now, CaseDelay(cfg, failed, jitters, id)) else t.outbox[id])
  }

  function AfterDefer(cfg: Config, t: Tables, ids: seq<nat>, now: real): Tables {
    t.(outbox := map id | id in t.outbox :: if id in ids then PutOff(t.outbox[id], now, cfg.cooldown) else t.outbox[id])
  }

  function AfterDelete(t: Tables, ids: seq<nat>): Tables {
    t.(outbox := map id | id in t.outbox && id !in ids :: t.outbox[id])
  }

  /** `bulk_create` numbers the new rows one after the other. */
  function Numbered(rows: seq<DeadRow>, next: nat): (r: map<nat, DeadRow>)
    ensures forall id :: id in r <==> next <= id < next + |rows|
    ensures forall id :: id in r ==> r[id] == rows[id - next].(id := id)
    decreases |rows|
  {
    if rows == [] then map[] else Numbered(rows[1..], next + 1)[next := rows[0].(id := next)]
  }

  function Burials(ms: seq<Row>, now: real): (rows: seq<DeadRow>)
    ensures |rows| == |ms|
    ensures forall i :: 0 <= i < |ms| ==> rows[i] == Buried(ms[i], 0, now)
  {
    seq(|ms|, i requires 0 <= i < |ms| => Buried(ms[i], 0, now))
  }

  function DeadLetters(ms: seq<Row>, next: nat, now: real): (r: map<nat, DeadRow>)
    ensures forall id :: id in r <==> next <= id < next + |ms|
    ensures forall id :: id in r ==> r[id] == Buried(ms[id - next], id, now)
  {
    Numbered(Burials(ms, now), next)
  }

  function AfterMove(t: Tables, ms: seq<Row>, now: real): Tables {
    var ids := Ids(ms);
    t.(outbox := map id | id in t.outbox && id !in ids :: t.outbox[id],
       dead := t.dead + DeadLetters(ms, t.nextDead, now),
       nextDead := t.nextDead + |ms|)
  }

  /** The second transaction, in the order the relay issues it. */
  function Settle(cfg: Config, t: Tables, l: Lists, jitters: seq<real>, now: real): Tables
    requires |jitters| == |l.failed|
  {
    var t1 := AfterUpdateFailed(cfg, t, l.failed, jitters, now);
    var t2 := AfterDelete(t1, l.published);
    var t3 := AfterMove(t2, l.exceeded, now);
    AfterDefer(cfg, t3, l.deferred, now)
  }

  // ---- One row at a time -------------------------------------------------------------------

  datatype Change = Bump | Remove | Bury | Postpone

  function Issue(cfg: Config, c: Change, t: Tables, l: Lists, jitters: seq<real>, now: real): Tables
    requires |jitters| == |l.failed|
  {
    match c
    case Bump => AfterUpdateFailed(cfg, t, l.failed, jitters, now)
    case Remove => AfterDelete(t, l.published)
    case Bury => AfterMove(t, l.exceeded, now)
    case Postpone => AfterDefer(cfg, t, l.deferred, now)
  }

  function IssueAll(cfg: Config, cs: seq<Change>, t: Tables, l: Lists, jitters: seq<real>, now: real): Tables
    requires |jitters| == |l.failed|
  {
    if cs == [] then t
    else Issue(cfg, cs[|cs| - 1], IssueAll(cfg, cs[..|cs| - 1], t, l, jitters, now), l, jitters, now)
  }

  /** No id is in two of the lists the mutations act on. */
  ghost predicate Disjoint(l: Lists) {
    forall id ::
      && (id in l.published ==> id !in FailedIds(l.failed) && id !in Ids(l.exceeded) && id !in l.deferred)
      && (id in FailedIds(l.failed) ==> id !in Ids(l.exceeded) && id !in l.deferred)
      && (id in Ids(l.exceeded) ==> id !in l.deferred)
  }

  predicate Dropped(cs: set<Change>, l: Lists, id: nat) {
    (Remove in cs && id in l.published) || (Bury in cs && id in Ids(l.exceeded))
  }

  function RowAfter(cfg: Config, cs: set<Change>, l: Lists, jitters: seq<real>, now: real, row: Row): Row
    requires |jitters| == |l.failed|
  {
    if Bump in cs && row.id in FailedIds(l.failed) then Bumped(row, now, CaseDelay(cfg, l.failed, jitters, row.id))
    else if Postpone in cs && row.id in l.deferred then PutOff(row, now, cfg.cooldown)
    else row
  }

  /** The tables when the changes in `cs` have happened to every row at once. */
  function Pointwise(cfg: Config, cs: set<Change>, t: Tables, l: Lists, jitters: seq<real>, now: real): Tables
    requires |jitters| == |l.failed|
  {
    t.(outbox := map id | id in t.outbox && !Dropped(cs, l, id) :: RowAfter(cfg, cs, l, jitters, now, t.outbox[id]),
       dead := if Bury in cs then t.dead + DeadLetters(l.exceeded, t.nextDead, now) else t.dead,
       nextDead := if Bury in cs then t.nextDead + |l.exceeded| else t.nextDead)
  }

  lemma IssueIsPointwise(cfg: Config, c: Change, cs: set<Change>, t: Tables, l: Lists, jitters: seq<real>, now: real)
    requires |jitters| == |l.failed| && Disjoint(l) && c !in cs && t.Valid()
    ensures Issue(cfg, c, Pointwise(cfg, cs, t, l, jitters, now), l, jitters, now)
            == Pointwise(cfg, cs + {c}, t, l, jitters, now)
  {
    var a := Issue(cfg, c, Pointwise(cfg, cs, t, l, jitters, now), l, jitters, now);
    var b := Pointwise(cfg, cs + {c}, t, l, jitters, now);
    forall id ensures id in a.outbox <==> id in b.outbox {}
    forall id | id in a.outbox && id in b.outbox ensures a.outbox[id] == b.outbox[id] {
      assert t.outbox[id].id == id;
    }
    assert a.outbox == b.outbox;
  }

  ghost predicate Distinct(cs: seq<Change>) {
    forall i, j :: 0 <= i < j < |cs| ==> cs[i] != cs[j]
  }

  /** Issued in any order, the bulk changes come to the same tables: each row's own change,
      its own jittered delay included, and nothing for rows outside the lists. */
  lemma {:induction false} AnyOrderIsPointwise(cfg: Config, cs: seq<Change>, t: Tables, l: Lists, jitters: seq<real>,
                                               now: real)
    requires |jitters| == |l.failed| && Disjoint(l) && Distinct(cs) && t.Valid()
    ensures IssueAll(cfg, cs, t, l, jitters, now) == Pointwise(cfg, (set c | c in cs), t, l, jitters, now)
    decreases |cs|
  {
    if cs == [] {
      assert Pointwise(cfg, {}, t, l, jitters, now).outbox == t.outbox;
    } else {
      var front, c := cs[..|cs| - 1], cs[|cs| - 1];
      AnyOrderIsPointwise(cfg, front, t, l, jitters, now);
      var done := set x | x in front;
      assert c !in done;
      assert (set x | x in cs) == done + {c} by {
        assert cs == front + [c];
      }
      IssueIsPointwise(cfg, c, done, t, l, jitters, now);
    }
  }

  const ALL: set<Change> := {Bump, Remove, Bury, Postpone}

  /** What the second transaction makes of the tables, row by row. */
  lemma SettleIsPointwise(cfg: Config, t: Tables, l: Lists, jitters: seq<real>, now: real)
    requires |jitters| == |l.failed| && Disjoint(l) && t.Valid()
    ensures Settle(cfg, t, l, jitters, now) == Pointwise(cfg, ALL, t, l, jitters, now)
  {
    var cs := [Bump, Remove, Bury, Postpone];
    assert cs[..3] == [Bump, Remove, Bury] && cs[..3][..2] == [Bump, Remove] && cs[..3][..2][..1] == [Bump]
        && cs[..3][..2][..1][..0] == [];
    assert IssueAll(cfg, [], t, l, jitters, now) == t;
    assert IssueAll(cfg, [Bump], t, l, jitters, now) == AfterUpdateFailed(cfg, t, l.failed, jitters, now);
    var t1 := AfterUpdateFailed(cfg, t, l.failed, jitters, now);
    assert IssueAll(cfg, [Bump, Remove], t, l, jitters, now) == AfterDelete(t1, l.published);
    assert IssueAll(cfg, [Bump, Remove, Bury], t, l, jitters, now)
        == AfterMove(AfterDelete(t1, l.published), l.exceeded, now);
    AnyOrderIsPointwise(cfg, cs, t, l, jitters, now);
    assert (set c | c in cs) == ALL;
  }

  /** A row gets the delay of its own failure, whatever else failed with it. */
  lemma {:induction false} CaseDelayIsOwn(cfg: Config, failed: seq<(nat, nat)>, jitters: seq<real>, i: nat)
    requires |jitters| == |failed| && i < |failed|
    requires forall j, k :: 0 <= j < k < |failed| ==> failed[j].0 != failed[k].0
    ensures CaseDelay(cfg, failed, jitters, failed[i].0) == Delay(cfg, failed[i].1, jitters[i])
    decreases |failed|
  {
    if i > 0 {
      assert failed[0].0 != failed[i].0;
      CaseDelayIsOwn(cfg, failed[1..], jitters[1..], i - 1);
    }
  }

  lemma {:induction false} CaseDelayInRange(cfg: Config, failed: seq<(nat, nat)>, jitters: seq<real>, id: nat)
    requires cfg.Valid() && |jitters| == |failed| && id in FailedIds(failed)
    requires forall i :: 0 <= i < |jitters| ==> IsJitter(cfg, jitters[i])
    ensures 0.0 < CaseDelay(cfg, failed, jitters, id) <= cfg.maxBackoff
    decreases |failed|
  {
    DelayInRange(cfg, failed[0].1, jitters[0]);
    if failed[0].0 != id {
      var i :| 0 <= i < |FailedIds(failed)| && FailedIds(failed)[i] == id;
      assert FailedIds(failed[1..])[i - 1] == id;
      CaseDelayInRange(cfg, failed[1..], jitters[1..], id);
    }
  }

  lemma LawfulIsDisjoint(cfg: Config, batch: seq<Row>, attempts: map<nat, Attempt>, l: Lists)
    requires Lawful(cfg, batch, attempts, l) && UniqueIds(batch)
    ensures Disjoint(l)
  {
    forall id
      ensures (id in l.published ==> id !in FailedIds(l.failed) && id !in Ids(l.exceeded) && id !in l.deferred)
              && (id in FailedIds(l.failed) ==> id !in Ids(l.exceeded) && id !in l.deferred)
              && (id in Ids(l.exceeded) ==> id !in l.deferred)
    {
      OneList(cfg, batch, attempts, l, id);
    }
  }

  /** When a row whose send failed is due again. */
  ghost predicate DueAfterFailure(cfg: Config, retries: nat, jitter: real, now: real, due: Option<real>) {
    var raw := (cfg.backoffTime * Pow2(retries)) as real + jitter;
    due == Some(now + if raw < cfg.maxBackoff then raw else cfg.maxBackoff)
  }

  /** What the second transaction makes of one stored row, column by column. */
  lemma SettledIs(cfg: Config, t: Tables, l: Lists, jitters: seq<real>, now: real, id: nat)
    requires |jitters| == |l.failed| && Disjoint(l) && t.Valid() && id in t.outbox
    requires forall j, k :: 0 <= j < k < |l.failed| ==> l.failed[j].0 != l.failed[k].0
    ensures var row, r := t.outbox[id], Settle(cfg, t, l, jitters, now).outbox;
            && (id in l.published || id in Ids(l.exceeded) ==> id !in r)
            && (id in l.deferred ==>
                  id in r && r[id] == Row(id, row.createdAt, Some(now), row.retries, Some(now + cfg.cooldown),
                                          row.payload))
            && (forall i :: 0 <= i < |l.failed| && l.failed[i].0 == id ==>
                  && id in r && DueAfterFailure(cfg, l.failed[i].1, jitters[i], now, r[id].retryAfter)
                  && r[id] == Row(id, row.createdAt, Some(now), row.retries + 1, r[id].retryAfter, row.payload))
            && (id !in l.published && id !in Ids(l.exceeded) && id !in l.deferred && id !in FailedIds(l.failed) ==>
                  id in r && r[id] == row)
  {
    SettleIsPointwise(cfg, t, l, jitters, now);
    forall i | 0 <= i < |l.failed| && l.failed[i].0 == id
      ensures id in FailedIds(l.failed) && CaseDelay(cfg, l.failed, jitters, id)
              == Delay(cfg, l.failed[i].1, jitters[i])
    {
      assert FailedIds(l.failed)[i] == id;
      CaseDelayIsOwn(cfg, l.failed, jitters, i);
    }
  }

  /** The dead letters it makes, column by column. */
  lemma BuriedAre(cfg: Config, t: Tables, l: Lists, jitters: seq<real>, now: real, i: nat)
    requires |jitters| == |l.failed| && Disjoint(l) && t.Valid() && i < |l.exceeded|
    ensures var m, d, r := l.exceeded[i], t.nextDead + i, Settle(cfg, t, l, jitters, now);
            && d in r.dead
            && r.dead[d] == DeadRow(d, m.createdAt, now, m.retries, m.payload, "max retries exceeded")
            && (forall id :: id in r.dead <==> id in t.dead || t.nextDead <= id < t.nextDead + |l.exceeded|)
            && (forall id :: id in t.dead ==> r.dead[id] == t.dead[id])
  {
    SettleIsPointwise(cfg, t, l, jitters, now);
    assert t.nextDead + i in DeadLetters(l.exceeded, t.nextDead, now);
  }

  /** Rows in none of the four lists leave the second transaction as they went in. */
  lemma UnlistedRowsKept(cfg: Config, t: Tables, l: Lists, jitters: seq<real>, now: real, id: nat)
    requires |jitters| == |l.failed| && Disjoint(l) && t.Valid() && id in t.outbox
    requires id !in l.published && id !in FailedIds(l.failed) && id !in Ids(l.exceeded) && id !in l.deferred
    ensures var r := Settle(cfg, t, l, jitters, now); id in r.outbox && r.outbox[id] == t.outbox[id]
  {
    SettleIsPointwise(cfg, t, l, jitters, now);
  }

  /** Rows a shutdown cut off are such rows. */
  lemma AbortedRowsKept(cfg: Config, t: Tables, batch: seq<Row>, attempts: map<nat, Attempt>, l: Lists,
                        jitters: seq<real>, now: real, id: nat)
    requires Lawful(cfg, batch, attempts, l) && UniqueIds(batch) && id in Ids(l.aborted)
    requires |jitters| == |l.failed| && t.Valid() && id in t.outbox
    ensures var r := Settle(cfg, t, l, jitters, now); id in r.outbox && r.outbox[id] == t.outbox[id]
  {
    LawfulIsDisjoint(cfg, batch, attempts, l);
    OneList(cfg, batch, attempts, l, id);
    UnlistedRowsKept(cfg, t, l, jitters, now, id);
  }

  // ---- The classes ----------------------------------------------------------------------------

  /** The outbox database. Django's bulk operations assign whole tables. */
  class Database {
    var outbox: map<nat, Row>
    var dead: map<nat, DeadRow>
    var nextRow: nat
    var nextDead: nat

    function View(): Tables
      reads this
    {
      Tables(outbox, dead, nextRow, nextDead)
    }
  }

  class RelayMutations {
    const cfg: Config

    constructor (cfg: Config)
      ensures this.cfg == cfg
    {
      this.cfg := cfg;
    }

    /** `random.uniform` is asked once per message, `jitters[i]` being its i-th answer. */
    method UpdateFailed(db: Database, failed: seq<(nat, nat)>, jitters: seq<real>, now: real)
      requires |jitters| == |failed|
      modifies db
      ensures db.View() == AfterUpdateFailed(cfg, old(db.View()), failed, jitters, now)
    {
      if failed == [] {
        assert db.View().outbox == AfterUpdateFailed(cfg, db.View(), failed, jitters, now).outbox;
        return;
      }
      var retryAfterCases: seq<(nat, real)> := [];
      var messageIds: seq<nat> := [];
      for i := 0 to |failed|
        invariant messageIds == FailedIds(failed[..i])
        invariant |retryAfterCases| == i
        invariant forall j :: 0 <= j < i ==> retryAfterCases[j] == (failed[j].0, Delay(cfg, failed[j].1, jitters[j]))
      {
        var (id, retries) := failed[i];
        var delay := Delay(cfg, retries, jitters[i]);
        messageIds := messageIds + [id];
        retryAfterCases := retryAfterCases + [(id, delay)];
        assert FailedIds(failed[..i + 1]) == FailedIds(failed[..i]) + [id];
      }
      assert failed[..|failed|] == failed;
      FirstCaseIsDelay(cfg, failed, jitters, retryAfterCases);
      db.outbox := map id | id in db.outbox ::
        if id in messageIds
        then db.outbox[id].(retries := db.outbox[id].retries + 1, updatedAt := Some(now),
                            retryAfter := Some(now + FirstCase(retryAfterCases, id)))
        else db.outbox[id];
    }

    method DeferDueToOutage(db: Database, ids: seq<nat>, now: real)
      modifies db
      ensures db.View() == AfterDefer(cfg, old(db.View()), ids, now)
      ensures forall id :: id in old(db.outbox) && id in ids ==>
                var row := old(db.outbox)[id];
                db.outbox[id] == Row(row.id, row.createdAt, Some(now), row.retries, Some(now + cfg.cooldown),
                                     row.payload)
    {
      if ids == [] {
        assert db.View().outbox == AfterDefer(cfg, db.View(), ids, now).outbox;
        return;
      }
      db.outbox := map id | id in db.outbox ::
        if id in ids then db.outbox[id].(updatedAt := Some(now), retryAfter := Some(now + cfg.cooldown))
        else db.outbox[id];
    }

    method DeletePublished(db: Database, ids: seq<nat>)
      modifies db
      ensures db.View() == AfterDelete(old(db.View()), ids)
    {
      if ids == [] {
        assert db.View().outbox == AfterDelete(db.View(), ids).outbox;
        return;
      }
      db.outbox := map id | id in db.outbox && id !in ids :: db.outbox[id];
    }

    method MoveExceededToDeadLetter(db: Database, exceeded: seq<Row>, now: real)
      modifies db
      ensures db.View() == AfterMove(old(db.View()), exceeded, now)
    {
      if exceeded == [] {
        assert db.View().outbox == AfterMove(db.View(), exceeded, now).outbox;
        assert db.View().dead == AfterMove(db.View(), exceeded, now).dead;
        return;
      }
      var deadLetters := seq(|exceeded|, i requires 0 <= i < |exceeded| =>
        var msg := exceeded[i];
        DeadRow(0, msg.createdAt, now, msg.retries, msg.payload, FAILURE_REASON));
      assert deadLetters == Burials(exceeded, now);
      db.dead := db.dead + Numbered(deadLetters, db.nextDead);
      db.nextDead := db.nextDead + |deadLetters|;
      var ids := Ids(exceeded);
      db.outbox := map id | id in db.outbox && id !in ids :: db.outbox[id];
    }
  }

  /** The value of the first `When` whose key matches. */
  function FirstCase(cases: seq<(nat, real)>, id: nat): real {
    if cases == [] then 0.0 else if cases[0].0 == id then cases[0].1 else FirstCase(cases[1..], id)
  }

  lemma {:induction false} FirstCaseIsDelay(cfg: Config, failed: seq<(nat, nat)>, jitters: seq<real>,
                                            cases: seq<(nat, real)>)
    requires |jitters| == |failed| == |cases|
    requires forall j :: 0 <= j < |cases| ==> cases[j] == (failed[j].0, Delay(cfg, failed[j].1, jitters[j]))
    ensures forall id :: FirstCase(cases, id) == CaseDelay(cfg, failed, jitters, id)
    decreases |cases|
  {
    if cases != [] {
      FirstCaseIsDelay(cfg, failed[1..], jitters[1..], cases[1..]);
    }
  }
}
