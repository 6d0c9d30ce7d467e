/** Moving dead letters back to the outbox (django_celery_outbox/replay.py). */
module Replay {
  import opened Types
  import opened Mutations
  import opened Selector

  function DeadFrom(t: Tables, ids: set<nat>, id: nat): seq<DeadRow>
    decreases t.nextDead - id
  {
    if id >= t.nextDead then []
    else (if id in ids && id in t.dead then [t.dead[id]] else []) + DeadFrom(t, ids, id + 1)
  }

  /** The rows a replay takes: those asked for that exist, oldest id first, up to the limit. */
  function Chosen(t: Tables, ids: set<nat>, limit: Option<nat>): seq<DeadRow> {
    var rows := DeadFrom(t, ids, 0);
    if limit.None? then rows else Limit(rows, limit.value)
  }

  function Revived(d: DeadRow, id: nat, now: real): Row {
    Row(id, now, None, 0, None, d.payload)
  }

  function Revivals(rows: seq<DeadRow>, next: nat, now: real): (r: map<nat, Row>)
    ensures forall id :: id in r <==> next <= id < next + |rows|
    ensures forall id :: id in r ==> r[id] == Revived(rows[id - next], id, now)
    decreases |rows|
  {
    if rows == [] then map[] else Revivals(rows[1..], next + 1, now)[next := Revived(rows[0], next, now)]
  }

  function DeadIds(rows: seq<DeadRow>): (ids: seq<nat>)
    ensures |ids| == |rows|
    ensures forall i :: 0 <= i < |rows| ==> ids[i] == rows[i].id
  {
    seq(|rows|, i requires 0 <= i < |rows| => rows[i].id)
  }

  function Without(dead: map<nat, DeadRow>, gone: seq<nat>): map<nat, DeadRow> {
    map id | id in dead && id !in gone :: dead[id]
  }

  function AfterReplay(t: Tables, ids: set<nat>, limit: Option<nat>, now: real): Tables {
    var rows := Chosen(t, ids, limit);
    t.(outbox := t.outbox + Revivals(rows, t.nextRow, now),
       nextRow := t.nextRow + |rows|,
       dead := Without(t.dead, DeadIds(rows)))
  }

  ghost predicate IncreasingDead(rows: seq<DeadRow>) {
    forall i, j :: 0 <= i < j < |rows| ==> rows[i].id < rows[j].id
  }

  lemma {:induction false} DeadFromSound(t: Tables, ids: set<nat>, id: nat)
    requires t.Valid()
    ensures var rows := DeadFrom(t, ids, id);
            && IncreasingDead(rows)
            && (forall i :: 0 <= i < |rows| ==>
                  rows[i].id >= id && rows[i].id in ids && rows[i].id in t.dead && t.dead[rows[i].id] == rows[i])
    decreases t.nextDead - id
  {
    if id < t.nextDead {
      DeadFromSound(t, ids, id + 1);
      var rest, rows := DeadFrom(t, ids, id + 1), DeadFrom(t, ids, id);
      if id in ids && id in t.dead {
        assert rows == [t.dead[id]] + rest;
      } else {
        assert rows == rest;
      }
    }
  }

  lemma {:induction false} DeadFromComplete(t: Tables, ids: set<nat>, id: nat, k: nat)
    requires t.Valid() && id <= k && k in ids && k in t.dead
    ensures t.dead[k] in DeadFrom(t, ids, id)
    decreases t.nextDead - id
  {
    assert k < t.nextDead;
    if id < k { DeadFromComplete(t, ids, id + 1, k); }
  }

  /** The rows taken are the oldest of those asked for; without a limit, all of them. */
  lemma ChosenAreTheOldest(t: Tables, ids: set<nat>, limit: Option<nat>)
    requires t.Valid()
    ensures var rows := Chosen(t, ids, limit);
            && IncreasingDead(rows)
            && (forall i :: 0 <= i < |rows| ==>
                  rows[i].id in ids && rows[i].id in t.dead && t.dead[rows[i].id] == rows[i])
            && (limit.Some? ==> |rows| <= limit.value)
            && (forall k :: k in ids && k in t.dead && t.dead[k] !in rows ==>
                  limit.Some? && |rows| == limit.value && forall i :: 0 <= i < |rows| ==> rows[i].id < k)
  {
    DeadFromSound(t, ids, 0);
    var all, rows := DeadFrom(t, ids, 0), Chosen(t, ids, limit);
    forall k | k in ids && k in t.dead && t.dead[k] !in rows
      ensures limit.Some? && |rows| == limit.value && forall i :: 0 <= i < |rows| ==> rows[i].id < k
    {
      DeadFromComplete(t, ids, 0, k);
      var j :| 0 <= j < |all| && all[j] == t.dead[k];
      assert j >= |rows|;
    }
  }

  /** A replay is a move: every dead letter either stays as it was or leaves, and then one
      fresh outbox row, never attempted, carries its payload; no old row changes and no
      row appears from nowhere. */
  lemma ReplayMoves(t: Tables, ids: set<nat>, limit: Option<nat>, now: real)
    requires t.Valid()
    ensures var r := AfterReplay(t, ids, limit, now);
            && r.Valid()
            && (forall id :: id in t.outbox ==> id in r.outbox && r.outbox[id] == t.outbox[id])
            && (forall id :: id in r.dead ==> id in t.dead && r.dead[id] == t.dead[id])
            && (forall d :: d in t.dead && d !in r.dead ==> Reappears(t, r, now, d))
            && (forall id :: id in r.outbox && id !in t.outbox ==> ComesBack(t, r, now, id))
            && |r.dead| + (r.nextRow - t.nextRow) == |t.dead|
  {
    ReplayKeeps(t, ids, limit, now);
    var r := AfterReplay(t, ids, limit, now);
    forall d | d in t.dead && d !in r.dead ensures Reappears(t, r, now, d) {
      GoneReappears(t, ids, limit, now, d);
    }
    forall id | id in r.outbox && id !in t.outbox ensures ComesBack(t, r, now, id) {
      NewComesBack(t, ids, limit, now, id);
    }
  }

  lemma ReplayKeeps(t: Tables, ids: set<nat>, limit: Option<nat>, now: real)
    requires t.Valid()
    ensures var r := AfterReplay(t, ids, limit, now);
            && r.Valid()
            && (forall id :: id in t.outbox ==> id in r.outbox && r.outbox[id] == t.outbox[id])
            && (forall id :: id in r.dead ==> id in t.dead && r.dead[id] == t.dead[id])
            && |r.dead| + (r.nextRow - t.nextRow) == |t.dead|
  {
    ReplayCount(t, ids, limit);
  }

  lemma ReplayCount(t: Tables, ids: set<nat>, limit: Option<nat>)
    requires t.Valid()
    ensures var rows := Chosen(t, ids, limit);
            |Without(t.dead, DeadIds(rows))| + |rows| == |t.dead|
  {
    ChosenAreTheOldest(t, ids, limit);
    GoneCount(t.dead, DeadIds(Chosen(t, ids, limit)));
  }

  lemma RevivalStored(t: Tables, rows: seq<DeadRow>, i: nat, now: real)
    requires i < |rows|
    ensures var id, outbox := t.nextRow + i, t.outbox + Revivals(rows, t.nextRow, now);
            id in outbox && outbox[id] == Revived(rows[i], id, now)
  {
    assert t.nextRow + i in Revivals(rows, t.nextRow, now);
  }

  lemma ChosenIndex(t: Tables, ids: set<nat>, limit: Option<nat>, d: nat) returns (i: nat)
    requires t.Valid() && d in t.dead && d !in Without(t.dead, DeadIds(Chosen(t, ids, limit)))
    ensures i < |Chosen(t, ids, limit)| && Chosen(t, ids, limit)[i] == t.dead[d]
  {
    ChosenAreTheOldest(t, ids, limit);
    var gone := DeadIds(Chosen(t, ids, limit));
    i :| 0 <= i < |gone| && gone[i] == d;
  }

  lemma GoneReappears(t: Tables, ids: set<nat>, limit: Option<nat>, now: real, d: nat)
    requires t.Valid() && d in t.dead && d !in AfterReplay(t, ids, limit, now).dead
    ensures Reappears(t, AfterReplay(t, ids, limit, now), now, d)
  {
    var rows := Chosen(t, ids, limit);
    var i := ChosenIndex(t, ids, limit, d);
    RevivalStored(t, rows, i, now);
  }

  lemma NewComesBack(t: Tables, ids: set<nat>, limit: Option<nat>, now: real, id: nat)
    requires t.Valid() && id in AfterReplay(t, ids, limit, now).outbox && id !in t.outbox
    ensures ComesBack(t, AfterReplay(t, ids, limit, now), now, id)
  {
    ChosenAreTheOldest(t, ids, limit);
    var rows := Chosen(t, ids, limit);
    assert id in Revivals(rows, t.nextRow, now);
    ChosenLeaves(t, rows, id - t.nextRow);
  }

  lemma ChosenLeaves(t: Tables, rows: seq<DeadRow>, i: nat)
    requires i < |rows| && rows[i].id in t.dead && t.dead[rows[i].id] == rows[i]
    ensures rows[i].id !in Without(t.dead, DeadIds(rows))
  {
    assert DeadIds(rows)[i] == rows[i].id;
  }

  ghost predicate Reappears(t: Tables, r: Tables, now: real, d: nat)
    requires d in t.dead
  {
    exists id :: t.nextRow <= id < r.nextRow && id in r.outbox
      && r.outbox[id] == Row(id, now, None, 0, None, t.dead[d].payload)
  }

  ghost predicate ComesBack(t: Tables, r: Tables, now: real, id: nat)
    requires id in r.outbox
  {
    && t.nextRow <= id < r.nextRow
    && exists d :: d in t.dead && d !in r.dead && r.outbox[id] == Row(id, now, None, 0, None, t.dead[d].payload)
  }

  lemma GoneCount(all: map<nat, DeadRow>, gone: seq<nat>)
    requires forall i, j :: 0 <= i < j < |gone| ==> gone[i] < gone[j]
    requires forall i :: 0 <= i < |gone| ==> gone[i] in all
    ensures |Without(all, gone)| + |gone| == |all|
  {
    SetSize(gone);
    var left, s := Without(all, gone), ToSet(gone);
    assert left.Keys == all.Keys - s;
    assert s <= all.Keys;
    assert |left| == |left.Keys| && |all| == |all.Keys|;
  }

  function ToSet(ids: seq<nat>): (s: set<nat>)
    ensures forall id :: id in s <==> id in ids
  {
    if ids == [] then {} else {ids[0]} + ToSet(ids[1..])
  }

  lemma {:induction false} SetSize(ids: seq<nat>)
    requires forall i, j :: 0 <= i < j < |ids| ==> ids[i] < ids[j]
    ensures |ToSet(ids)| == |ids|
    decreases |ids|
  {
    if ids != [] {
      SetSize(ids[1..]);
      assert ids[0] !in ids[1..];
    }
  }

  method ReplayDeadLetters(db: Database, deadLetterIds: set<nat>, limit: Option<nat>, now: real) returns (count: nat)
    requires db.View().Valid()
    modifies db
    ensures db.View() == AfterReplay(old(db.View()), deadLetterIds, limit, now)
    ensures count == db.nextRow - old(db.nextRow)
    ensures count == old(|db.dead|) - |db.dead|
  {
    ghost var was := db.View();
    ReplayMoves(was, deadLetterIds, limit, now);
    var rows := Chosen(db.View(), deadLetterIds, limit);
    if rows == [] {
      assert db.View().outbox == AfterReplay(was, deadLetterIds, limit, now).outbox;
      assert db.View().dead == AfterReplay(was, deadLetterIds, limit, now).dead;
      return 0;
    }
    db.outbox := db.outbox + Revivals(rows, db.nextRow, now);
    db.nextRow := db.nextRow + |rows|;
    var gone := DeadIds(rows);
    db.dead := Without(db.dead, gone);
    return |rows|;
  }
}
