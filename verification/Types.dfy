/** The values that pass between the parts of the relay: rows of the two tables,
    the relay's settings and the two tables themselves. Times are real seconds. */
module Types {

  datatype Option<+T> = None | Some(value: T)

  /** The schema versions of stored options the relay can read. */
  const MIN_SUPPORTED_VERSION := 1
  const CURRENT_SCHEMA_VERSION := 1

  /** What one `send_task` call stores and every later copy must still carry.
      `ticket` is the model's own name for that call: two calls with equal
      arguments are different tickets. JSON columns are kept as their text. */
  datatype Payload = Payload(
    ticket: nat,
    taskId: string,
    taskName: string,
    args: string,
    kwargs: string,
    redactedArgs: Option<string>,
    redactedKwargs: Option<string>,
    options: string,
    sentryTraceId: Option<string>,
    sentryBaggage: Option<string>,
    structlogContext: Option<string>,
    schemaVersion: int)

  /** A row of the outbox, or a relay's copy of one. */
  datatype Row = Row(
    id: nat,
    createdAt: real,
    updatedAt: Option<real>,
    retries: nat,
    retryAfter: Option<real>,
    payload: Payload)

  datatype DeadRow = DeadRow(
    id: nat,
    createdAt: real,
    deadAt: real,
    retries: nat,
    payload: Payload,
    failureReason: string)

  /** The two tables; `nextRow` and `nextDead` are above every id ever used. */
  datatype Tables = Tables(
    outbox: map<nat, Row>,
    dead: map<nat, DeadRow>,
    nextRow: nat,
    nextDead: nat)
  {
    ghost predicate Valid() {
      && (forall id :: id in outbox ==> outbox[id].id == id < nextRow)
      && (forall id :: id in dead ==> dead[id].id == id < nextDead)
    }
  }

  datatype Config = Config(
    batchSize: nat,
    backoffTime: nat,
    maxRetries: nat,
    publishConcurrency: nat,
    staleTimeout: real,
    shutdownTimeout: real,
    cooldown: real,
    maxBackoff: real)
  {
    /** What `RelayConfig.init` checks before a relay can exist. */
    predicate Valid() {
      && batchSize > 0
      && backoffTime > 0
      && maxRetries > 0
      && publishConcurrency > 0
      && staleTimeout > 0.0
      && shutdownTimeout > 0.0
      && cooldown > 0.0
      && maxBackoff > 0.0
    }
  }

  function Ids(rows: seq<Row>): (ids: seq<nat>)
    ensures |ids| == |rows|
    ensures forall i :: 0 <= i < |rows| ==> ids[i] == rows[i].id
  {
    if rows == [] then [] else [rows[0].id] + Ids(rows[1..])
  }

  ghost predicate UniqueIds(rows: seq<Row>) {
    forall i, j :: 0 <= i < j < |rows| ==> rows[i].id != rows[j].id
  }

  lemma IdsAppend(a: seq<Row>, b: seq<Row>)
    ensures Ids(a + b) == Ids(a) + Ids(b)
  {
  }
}
