/** The purge of dead letters (django_celery_outbox/purge.py): deletion chunk by chunk, and a
    dry run that must tell the same. */
module Purging {
  import opened Types
  import opened Mutations
  import Glob
  import Protocol

  datatype Criteria = Criteria(olderThanDead: Option<real>, olderThanCreated: Option<real>,
                               taskNamePattern: Option<string>)

  datatype PurgeResult = PurgeResult(deletedCount: nat, taskNames: map<string, nat>)

  /** `ValueError` when neither age is given. */
  datatype Purged = Done(result: PurgeResult) | NoAgeGiven

  const DELETE_CHUNK_SIZE := 1000

  // ---- Which rows --------------------------------------------------------------------------

  ghost predicate Matches(c: Criteria, now: real, d: DeadRow) {
    && (c.olderThanDead.Some? ==> d.deadAt < now - c.olderThanDead.value)
    && (c.olderThanCreated.Some? ==> d.createdAt < now - c.olderThanCreated.value)
    && (c.taskNamePattern.Some? ==>
          var r := Glob.Parse(Glob.GlobToRegex(c.taskNamePattern.value));
          r.Atoms? && Glob.Accepts(r.atoms, d.payload.taskName))
  }

  ghost function Matching(c: Criteria, now: real, dead: map<nat, DeadRow>): set<nat> {
    set id | id in dead && Matches(c, now, dead[id])
  }

  // ---- Counting ------------------------------------------------------------------------------

  function NamesOf(dead: map<nat, DeadRow>, ids: set<nat>): set<string> {
    set id | id in ids && id in dead :: dead[id].payload.taskName
  }

  function Named(dead: map<nat, DeadRow>, ids: set<nat>, name: string): set<nat> {
    set id | id in ids && id in dead && dead[id].payload.taskName == name
  }

  /** How many of the rows `ids` each task has. */
  function Counts(dead: map<nat, DeadRow>, ids: set<nat>): map<string, nat> {
    map name | name in NamesOf(dead, ids) :: |Named(dead, ids, name)|
  }

  ghost function Total(m: map<string, nat>): nat
    decreases m.Keys
  {
    if m.Keys == {} then 0
    else
      var k :| k in m;
      m[k] + Total(m - {k})
  }

  lemma {:induction false} TotalWithout(m: map<string, nat>, k: string)
    requires k in m
    ensures Total(m) == m[k] + Total(m - {k})
    decreases m.Keys
  {
    var j :| j in m && Total(m) == m[j] + Total(m - {j});
    if j != k {
      TotalWithout(m - {j}, k);
      TotalWithout(m - {k}, j);
      assert m - {j} - {k} == m - {k} - {j};
    }
  }

  function Increment(m: map<string, nat>, name: string): map<string, nat> {
    m[name := (if name in m then m[name] else 0) + 1]
  }

  lemma TotalIncrement(m: map<string, nat>, name: string)
    ensures Total(Increment(m, name)) == Total(m) + 1
  {
    var r := Increment(m, name);
    TotalWithout(r, name);
    if name in m {
      TotalWithout(m, name);
      assert r - {name} == m - {name};
    } else {
      assert r - {name} == m;
    }
  }

  lemma CountOneMore(dead: map<nat, DeadRow>, ids: set<nat>, id: nat)
    requires id in dead && id !in ids
    ensures Counts(dead, ids + {id}) == Increment(Counts(dead, ids), dead[id].payload.taskName)
  {
    var name := dead[id].payload.taskName;
    var a, b := Counts(dead, ids), Counts(dead, ids + {id});
    assert NamesOf(dead, ids + {id}) == NamesOf(dead, ids) + {name};
    forall n | n in b ensures b[n] == Increment(a, name)[n] {
      NamedOneMore(dead, ids, id, n);
    }
    assert b.Keys == Increment(a, name).Keys;
  }

  lemma NamedOneMore(dead: map<nat, DeadRow>, ids: set<nat>, id: nat, n: string)
    requires id in dead && id !in ids
    ensures |Named(dead, ids + {id}, n)| == |Named(dead, ids, n)| + if dead[id].payload.taskName == n then 1 else 0
    ensures n !in NamesOf(dead, ids) ==> |Named(dead, ids, n)| == 0
  {
    if n !in NamesOf(dead, ids) { assert Named(dead, ids, n) == {}; }
    if dead[id].payload.taskName == n {
      assert Named(dead, ids + {id}, n) == Named(dead, ids, n) + {id};
    } else {
      assert Named(dead, ids + {id}, n) == Named(dead, ids, n);
    }
  }

  /** The counts of all tasks add up to the number of rows. */
  lemma {:induction false} CountsAddUp(dead: map<nat, DeadRow>, ids: set<nat>)
    requires ids <= dead.Keys
    ensures Total(Counts(dead, ids)) == |ids|
    decreases |ids|
  {
    if ids == {} {
      assert Counts(dead, ids).Keys == {};
    } else {
      var id :| id in ids;
      var rest := ids - {id};
      CountsAddUp(dead, rest);
      CountOneMore(dead, rest, id);
      assert rest + {id} == ids;
      TotalIncrement(Counts(dead, rest), dead[id].payload.taskName);
    }
  }

  // ---- Deleting --------------------------------------------------------------------------------

  predicate ListedOnce(order: seq<nat>) { forall i, j :: 0 <= i < j < |order| ==> order[i] != order[j] }

  /** The query: the first `limit` of the rows still there that match, as `order` puts them. */
  function FirstOf(order: seq<nat>, ids: set<nat>, limit: nat): (r: seq<nat>)
    ensures |r| <= limit
    ensures forall id :: id in r ==> id in order && id in ids
    ensures r == [] && limit > 0 ==> forall id :: id in order ==> id !in ids
  {
    if order == [] || limit == 0 then []
    else if order[0] in ids then [order[0]] + FirstOf(order[1..], ids, limit - 1)
    else FirstOf(order[1..], ids, limit)
  }

  lemma {:induction false} FirstOfListedOnce(order: seq<nat>, ids: set<nat>, limit: nat)
    requires ListedOnce(order)
    ensures ListedOnce(FirstOf(order, ids, limit))
    decreases |order|
  {
    if order != [] && limit > 0 {
      FirstOfListedOnce(order[1..], ids, if order[0] in ids then limit - 1 else limit);
      assert order[0] !in order[1..];
    }
  }

  function SetOf(ids: seq<nat>): set<nat> { set id | id in ids }

  lemma {:induction false} SetOfSize(ids: seq<nat>)
    requires ListedOnce(ids)
    ensures |SetOf(ids)| == |ids|
    decreases |ids|
  {
    if ids != [] {
      SetOfSize(ids[1..]);
      assert ids == [ids[0]] + ids[1..];
      assert SetOf(ids) == SetOf(ids[1..]) + {ids[0]};
      assert ids[0] !in ids[1..];
    }
  }

  lemma SetOfPrefix(ids: seq<nat>, i: nat)
    requires i < |ids| && ListedOnce(ids)
    ensures SetOf(ids[..i + 1]) == SetOf(ids[..i]) + {ids[i]}
    ensures ids[i] !in SetOf(ids[..i]) && ids[i] in ids
  {
    assert ids[..i + 1] == ids[..i] + [ids[i]];
  }

  /** One chunk's rows are added to the counts. */
  method CountChunk(dead: map<nat, DeadRow>, chunk: seq<nat>, ghost before: map<nat, DeadRow>, ghost seen: set<nat>,
                    taskNames: map<string, nat>)
    returns (taskNames': map<string, nat>)
    requires ListedOnce(chunk)
    requires forall id :: id in chunk ==> id in dead && id in before && dead[id] == before[id] && id !in seen
    requires taskNames == Counts(before, seen)
    ensures taskNames' == Counts(before, seen + SetOf(chunk))
  {
    taskNames' := taskNames;
    ghost var done := seen;
    for i := 0 to |chunk|
      invariant done == seen + SetOf(chunk[..i]) && taskNames' == Counts(before, done)
    {
      SetOfPrefix(chunk, i);
      CountOneMore(before, done, chunk[i]);
      done := done + {chunk[i]};
      var name := dead[chunk[i]].payload.taskName;
      taskNames' := Increment(taskNames', name);
    }
    assert chunk[..|chunk|] == chunk;
  }

  /** The rows of `before` that are not among `gone`. */
  function Left(before: map<nat, DeadRow>, gone: set<nat>): map<nat, DeadRow> {
    map id | id in before && id !in gone :: before[id]
  }

  lemma SeenGrows(seen: set<nat>, chunk: seq<nat>, matching: set<nat>)
    requires ListedOnce(chunk) && chunk != [] && seen <= matching
    requires forall id :: id in chunk ==> id in matching && id !in seen
    ensures seen + SetOf(chunk) <= matching && |seen + SetOf(chunk)| == |seen| + |chunk|
    ensures |matching - (seen + SetOf(chunk))| < |matching - seen|
  {
    SetOfSize(chunk);
    assert seen !! SetOf(chunk);
    assert chunk[0] in SetOf(chunk);
    assert matching - seen == (matching - (seen + SetOf(chunk))) + SetOf(chunk);
    assert |matching - seen| == |matching - (seen + SetOf(chunk))| + |SetOf(chunk)|;
  }

  /** What the query gives while the rows `seen` are gone already. */
  lemma NextChunk(before: map<nat, DeadRow>, matching: set<nat>, seen: set<nat>, order: seq<nat>, limit: nat)
    requires ListedOnce(order) && limit >= 1 && seen <= matching <= before.Keys
    requires forall id :: id in matching ==> id in order
    ensures var chunk := FirstOf(order, matching * Left(before, seen).Keys, limit);
            && ListedOnce(chunk)
            && (forall id :: id in chunk ==> id in matching && id in before && id in Left(before, seen) && id !in seen)
            && (chunk == [] ==> seen == matching)
  {
    FirstOfListedOnce(order, matching * Left(before, seen).Keys, limit);
  }

  lemma LeftAfter(before: map<nat, DeadRow>, seen: set<nat>, chunk: seq<nat>)
    ensures Left(Left(before, seen), SetOf(chunk)) == Left(before, seen + SetOf(chunk))
  {
  }

  /** One turn of the loop, `seen` being the rows deleted before it: queries, counts, deletes. */
  method DeleteChunk(db: Database, matching: set<nat>, order: seq<nat>, chunkSize: nat, taskNames: map<string, nat>,
                     ghost before: map<nat, DeadRow>, ghost seen: set<nat>)
    returns (chunk: seq<nat>, taskNames': map<string, nat>)
    requires chunkSize >= 1 && ListedOnce(order) && seen <= matching <= before.Keys
    requires forall id :: id in matching ==> id in order
    requires db.dead == Left(before, seen) && taskNames == Counts(before, seen)
    modifies db`dead
    ensures chunk == [] ==> seen == matching && db.dead == old(db.dead) && taskNames' == taskNames
    ensures chunk != [] ==>
              var now := seen + SetOf(chunk);
              && now <= matching && |now| == |seen| + |chunk| && |matching - now| < |matching - seen|
              && db.dead == Left(before, now) && taskNames' == Counts(before, now)
  {
    chunk := FirstOf(order, matching * db.dead.Keys, chunkSize);
    NextChunk(before, matching, seen, order, chunkSize);
    if chunk == [] {
      return chunk, taskNames;
    }
    taskNames' := CountChunk(db.dead, chunk, before, seen, taskNames);
    SeenGrows(seen, chunk, matching);
    LeftAfter(before, seen, chunk);
    db.dead := Left(db.dead, SetOf(chunk));
  }

  /** Whatever the order and the chunk size, the loop ends with exactly the matching rows
      gone and counted. `matching` is the filter, which the rows of the table keep giving. */
  method DeleteInChunks(db: Database, matching: set<nat>, order: seq<nat>, chunkSize: nat) returns (r: PurgeResult)
    requires chunkSize >= 1 && ListedOnce(order)
    requires matching <= db.dead.Keys && forall id :: id in matching ==> id in order
    modifies db`dead
    ensures db.dead == Left(old(db.dead), matching)
    ensures r == PurgeResult(|matching|, Counts(old(db.dead), matching))
  {
    var deletedCount: nat := 0;
    var taskNames: map<string, nat> := map[];
    ghost var seen: set<nat> := {};
    NothingDeleted(db.dead);
    while true
      invariant seen <= matching && deletedCount == |seen|
      invariant taskNames == Counts(old(db.dead), seen)
      invariant db.dead == Left(old(db.dead), seen)
      decreases |matching - seen|
    {
      var chunk;
      chunk, taskNames := DeleteChunk(db, matching, order, chunkSize, taskNames, old(db.dead), seen);
      if chunk == [] {
        break;
      }
      deletedCount := deletedCount + |chunk|;
      seen := seen + SetOf(chunk);
    }
    r := PurgeResult(deletedCount, taskNames);
  }

  lemma NothingDeleted(dead: map<nat, DeadRow>)
    ensures Counts(dead, {}) == map[] && Left(dead, {}) == dead
  {
  }

  /** The dry run's `sum` over the counts. */
  method Sum(m: map<string, nat>) returns (total: nat)
    ensures total == Total(m)
  {
    total := 0;
    var rest := m;
    while rest.Keys != {}
      invariant total + Total(rest) == Total(m)
      decreases rest.Keys
    {
      var k :| k in rest;
      TotalWithout(rest, k);
      total := total + rest[k];
      rest := rest - {k};
    }
  }

  /** What a purge reports, dry or not. */
  ghost function Report(c: Criteria, now: real, dead: map<nat, DeadRow>): PurgeResult {
    PurgeResult(|Matching(c, now, dead)|, Counts(dead, Matching(c, now, dead)))
  }

  /** The counts of a report add up to the number of rows, every name counted has a row, and
      each is the number of matching rows of that name. */
  lemma ReportAddsUp(c: Criteria, now: real, dead: map<nat, DeadRow>)
    ensures var r := Report(c, now, dead);
            && Total(r.taskNames) == r.deletedCount
            && (forall name :: name in r.taskNames <==>
                  exists id :: id in dead && Matches(c, now, dead[id]) && dead[id].payload.taskName == name)
            && (forall name :: name in r.taskNames ==> r.taskNames[name] >= 1)
            && (forall name :: name in r.taskNames ==>
                  r.taskNames[name] == |set id | id in dead && Matches(c, now, dead[id])
                      && dead[id].payload.taskName == name|)
  {
    CountsAddUp(dead, Matching(c, now, dead));
    var ids := Matching(c, now, dead);
    forall name | name in Counts(dead, ids) ensures |Named(dead, ids, name)| >= 1 {
      var id :| id in ids && dead[id].payload.taskName == name;
      assert id in Named(dead, ids, name);
    }
    forall name | name in Counts(dead, ids)
      ensures |Named(dead, ids, name)|
              == |set id | id in dead && Matches(c, now, dead[id]) && dead[id].payload.taskName == name|
    {
      assert Named(dead, ids, name) == set id | id in dead && Matches(c, now, dead[id])
          && dead[id].payload.taskName == name;
    }
  }

  /** Which dead letters a purge takes: those that died, and were created, longer ago than asked
      for, and whose one-line task name the glob matches. */
  lemma PurgesExactly(c: Criteria, now: real, dead: map<nat, DeadRow>, id: nat)
    requires id in dead && Glob.OneLine(dead[id].payload.taskName)
    ensures var d := dead[id];
            id in Matching(c, now, dead) <==>
              && (c.olderThanDead.Some? ==> now - d.deadAt > c.olderThanDead.value)
              && (c.olderThanCreated.Some? ==> now - d.createdAt > c.olderThanCreated.value)
              && (c.taskNamePattern.Some? ==> Glob.GlobMatches(c.taskNamePattern.value, d.payload.taskName))
  {
    if c.taskNamePattern.Some? { Glob.RegexMeansTheGlob(c.taskNamePattern.value, dead[id].payload.taskName); }
  }

  /** `matching` is what the database's filter answers, `order` the table's ids as the query
      sorts them. Dry or not, the report is the same; only the real purge deletes. */
  method PurgeDeadLetter(db: Database, c: Criteria, now: real, dryRun: bool, matching: set<nat>, order: seq<nat>)
      returns (r: Purged)
    requires matching == Matching(c, now, db.dead) && ListedOnce(order) && forall id :: id in db.dead ==> id in order
    modifies db
    ensures r.NoAgeGiven? <==> c.olderThanDead.None? && c.olderThanCreated.None?
    ensures r.Done? ==> r.result == Report(c, now, old(db.dead))
    ensures r.NoAgeGiven? || dryRun ==> db.View() == old(db.View())
    ensures r.Done? && !dryRun ==> db.View() == Protocol.AfterPurge(old(db.View()), Matching(c, now, old(db.dead)))
  {
    if c.olderThanDead.None? && c.olderThanCreated.None? {
      return NoAgeGiven;
    }
    if dryRun {
      var taskNames := Counts(db.dead, matching);
      var total := Sum(taskNames);
      CountsAddUp(db.dead, matching);
      return Done(PurgeResult(total, taskNames));
    }
    var result := DeleteInChunks(db, matching, order, DELETE_CHUNK_SIZE);
    return Done(result);
  }
}
