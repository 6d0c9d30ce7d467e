/** Which rows a relay may claim (django_celery_outbox/_pending.py) and the claim itself
    (django_celery_outbox/relay/_message_selector.py). */
module Selector {
  import opened Types
  import opened Mutations

  predicate Supported(row: Row) {
    MIN_SUPPORTED_VERSION <= row.payload.schemaVersion <= CURRENT_SCHEMA_VERSION
  }

  /** `get_pending_filter`; SQL comparisons with NULL are not true. */
  predicate Pending(row: Row, now: real, staleTimeout: real) {
    && (|| row.updatedAt.None?
        || (row.retryAfter.Some? && row.retryAfter.value <= now)
        || (row.updatedAt.Some? && row.updatedAt.value <= now - staleTimeout && row.retryAfter.None?))
    && Supported(row)
  }

  predicate Free(t: Tables, locked: set<nat>, stale: real, now: real, id: nat) {
    id in t.outbox && id !in locked && Pending(t.outbox[id], now, stale)
  }

  /** The rows the query yields from `id` on, before the limit, ordered by id. `locked` are
      the rows other open transactions hold; SKIP LOCKED passes over them. */
  function FreeFrom(t: Tables, locked: set<nat>, stale: real, now: real, id: nat): seq<Row>
    decreases t.nextRow - id
  {
    if id >= t.nextRow then []
    else (if Free(t, locked, stale, now, id) then [t.outbox[id]] else []) + FreeFrom(t, locked, stale, now, id + 1)
  }

  function Limit<T>(s: seq<T>, n: nat): (r: seq<T>)
    ensures |r| <= n && r <= s
    ensures |r| < n ==> r == s
  {
    if |s| <= n then s else s[..n]
  }

  function Selected(t: Tables, locked: set<nat>, stale: real, now: real, limit: nat): seq<Row> {
    Limit(FreeFrom(t, locked, stale, now, 0), limit)
  }

  ghost predicate IncreasingIds(rows: seq<Row>) {
    forall i, j :: 0 <= i < j < |rows| ==> rows[i].id < rows[j].id
  }

  lemma {:induction false} FreeFromSound(t: Tables, locked: set<nat>, stale: real, now: real, id: nat)
    requires t.Valid()
    ensures var rows := FreeFrom(t, locked, stale, now, id);
            && IncreasingIds(rows)
            && (forall i :: 0 <= i < |rows| ==>
                  rows[i].id >= id && Free(t, locked, stale, now, rows[i].id) && t.outbox[rows[i].id] == rows[i])
    decreases t.nextRow - id
  {
    if id < t.nextRow {
      FreeFromSound(t, locked, stale, now, id + 1);
      var rest, rows := FreeFrom(t, locked, stale, now, id + 1), FreeFrom(t, locked, stale, now, id);
      if Free(t, locked, stale, now, id) {
        assert rows == [t.outbox[id]] + rest;
      } else {
        assert rows == rest;
      }
    }
  }

  lemma {:induction false} FreeFromComplete(t: Tables, locked: set<nat>, stale: real, now: real, id: nat, k: nat)
    requires t.Valid() && id <= k && Free(t, locked, stale, now, k)
    ensures t.outbox[k] in FreeFrom(t, locked, stale, now, id)
    decreases t.nextRow - id
  {
    assert k < t.nextRow;
    if id < k { FreeFromComplete(t, locked, stale, now, id + 1, k); }
  }

  /** The claim takes copies of free rows only, in id order, at most `limit`, and passes
      over a free row only when it has already taken `limit` older ones. */
  lemma SelectedAreTheOldestFree(t: Tables, locked: set<nat>, stale: real, now: real, limit: nat)
    requires t.Valid()
    ensures var rows := Selected(t, locked, stale, now, limit);
            && |rows| <= limit
            && IncreasingIds(rows)
            && (forall m :: m in rows ==> Free(t, locked, stale, now, m.id) && t.outbox[m.id] == m)
            && (forall k :: Free(t, locked, stale, now, k) && t.outbox[k] !in rows ==>
                  |rows| == limit && forall m :: m in rows ==> m.id < k)
  {
    FreeFromSound(t, locked, stale, now, 0);
    var all := FreeFrom(t, locked, stale, now, 0);
    var rows := Selected(t, locked, stale, now, limit);
    forall k | Free(t, locked, stale, now, k) && t.outbox[k] !in rows
      ensures |rows| == limit && forall m :: m in rows ==> m.id < k
    {
      FreeFromComplete(t, locked, stale, now, 0, k);
      var j :| 0 <= j < |all| && all[j] == t.outbox[k];
      assert forall i :: 0 <= i < |rows| ==> rows[i] == all[i];
      assert j >= |rows|;
    }
  }

  /** What the query asks of a row, column by column: never touched, or past its retry time, or
      without one and touched longer than the stale timeout ago; and of schema version 1. */
  ghost predicate Eligible(row: Row, now: real, stale: real) {
    && row.payload.schemaVersion == 1
    && match (row.updatedAt, row.retryAfter)
       case (None, _) => true
       case (Some(_), Some(due)) => due <= now
       case (Some(touched), None) => touched <= now - stale
  }

  /** The claim, without its own filter's terms: it takes eligible rows that nobody holds, and
      an eligible row is left only for as many older ones as the limit allows. */
  lemma {:induction false} ClaimedIffEligible(t: Tables, locked: set<nat>, stale: real, now: real, limit: nat, row: Row)
    requires t.Valid() && row.id in t.outbox && t.outbox[row.id] == row
    ensures var rows := Selected(t, locked, stale, now, limit);
            && (row in rows ==> row.id !in locked && Eligible(row, now, stale))
            && (row.id !in locked && Eligible(row, now, stale) && row !in rows ==>
                  |rows| == limit && forall m :: m in rows ==> m.id < row.id)
            && (|rows| < limit ==> (row in rows <==> row.id !in locked && Eligible(row, now, stale)))
  {
    SelectedAreTheOldestFree(t, locked, stale, now, limit);
    assert Free(t, locked, stale, now, row.id) <==> row.id !in locked && Eligible(row, now, stale);
  }

  lemma ClaimedAreEligible(t: Tables, locked: set<nat>, stale: real, now: real, limit: nat)
    requires t.Valid()
    ensures forall m :: m in Selected(t, locked, stale, now, limit) ==> m.id !in locked && Eligible(m, now, stale)
  {
    SelectedAreTheOldestFree(t, locked, stale, now, limit);
    forall m | m in Selected(t, locked, stale, now, limit) ensures m.id !in locked && Eligible(m, now, stale) {
      ClaimedIffEligible(t, locked, stale, now, limit, m);
    }
  }

  lemma {:induction false} IdsSpread(rows: seq<Row>, j: nat)
    requires IncreasingIds(rows) && j < |rows|
    ensures rows[j].id >= rows[0].id + j
    decreases j
  {
    if j > 0 { IdsSpread(rows, j - 1); }
  }

  /** When only one row can be claimed, the claim takes it. */
  lemma OnlyRowSelected(t: Tables, stale: real, now: real, limit: nat, id: nat)
    requires limit > 0 && t.Valid() && t.outbox.Keys == {id} && Pending(t.outbox[id], now, stale)
    ensures Selected(t, {}, stale, now, limit) == [t.outbox[id]]
  {
    var rows := Selected(t, {}, stale, now, limit);
    SelectedAreTheOldestFree(t, {}, stale, now, limit);
    assert Free(t, {}, stale, now, id);
    if rows != [] { IdsSpread(rows, |rows| - 1); }
    forall i | 0 <= i < |rows| ensures rows[i].id == id {
      assert rows[i] in rows;
      assert rows[i].id in t.outbox.Keys;
    }
  }

  function Stamped(t: Tables, rows: seq<Row>, now: real): Tables {
    var ids := Ids(rows);
    t.(outbox := map id | id in t.outbox :: if id in ids then t.outbox[id].(updatedAt := Some(now)) else t.outbox[id])
  }

  class MessageSelector {
    const batchSize: nat
    const staleTimeout: real

    constructor (batchSize: nat, staleTimeout: real)
      ensures this.batchSize == batchSize && this.staleTimeout == staleTimeout
    {
      this.batchSize, this.staleTimeout := batchSize, staleTimeout;
    }

    /** The first transaction. What it returns are the rows as they were before the stamp. */
    method Run(db: Database, locked: set<nat>, now: real) returns (messages: seq<Row>)
      modifies db
      ensures messages == Selected(old(db.View()), locked, staleTimeout, now, batchSize)
      ensures db.View() == Stamped(old(db.View()), messages, now)
      ensures old(db.View()).Valid() ==>
                forall m :: m in messages ==> m.id !in locked && Eligible(m, now, staleTimeout)
    {
      ghost var was := db.View();
      if was.Valid() { ClaimedAreEligible(was, locked, staleTimeout, now, batchSize); }
      messages := Selected(db.View(), locked, staleTimeout, now, batchSize);
      MarkInFlight(db, messages, now);
    }

    method MarkInFlight(db: Database, messages: seq<Row>, now: real)
      modifies db
      ensures db.View() == Stamped(old(db.View()), messages, now)
    {
      var messageIds := Ids(messages);
      if messageIds == [] {
        assert db.View().outbox == Stamped(db.View(), messages, now).outbox;
        return;
      }
      db.outbox := map id | id in db.outbox ::
        if id in messageIds then db.outbox[id].(updatedAt := Some(now)) else db.outbox[id];
    }
  }
}
