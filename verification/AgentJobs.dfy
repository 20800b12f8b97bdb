/** Chat agent jobs: a lease and retry scheduler. Job ids are numbers because the claim orders by
    them; tokens are drawn afresh by every claim. */
module AgentJobs {
  import opened Options

  const MAX_ATTEMPTS: nat := 3
  const LEASE: int := 90

  datatype Status = Pending | Leased | Completed | Skipped | Failed

  datatype Row = Row(
    agent: string,
    source: string,
    status: Status,
    attempts: nat,
    available: int,
    token: Option<string>,
    until: Option<int>,
    located: bool,
    reply: Option<string>,
    message: Option<string>,
    code: string,
    finished: Option<int>)

  type Rows = map<nat, Row>

  /** What a claim hands to its worker. */
  datatype Claimed = Claimed(id: nat, token: string, attempts: nat)

  predicate Finished(s: Status) { s == Completed || s == Skipped || s == Failed }

  // Enqueuing

  predicate IsFor(row: Row, agent: string, source: string) { row.agent == agent && row.source == source }

  predicate HasJob(rows: Rows, agent: string, source: string) { exists id <- rows :: IsFor(rows[id], agent, source) }

  /** The unique index: an agent has at most one job for a source message. */
  ghost predicate OnePerMessage(rows: Rows) {
    forall id, other :: id in rows && other in rows && IsFor(rows[id], rows[other].agent, rows[other].source) ==>
      id == other
  }

  function Fresh(agent: string, source: string, now: int, located: bool): Row {
    Row(agent, source, Pending, 0, now, None, None, located, None, None, "", None)
  }

  function EnqueueTx(rows: Rows, id: nat, agent: string, source: string, now: int, located: bool): Rows {
    if HasJob(rows, agent, source) then rows else rows[id := Fresh(agent, source, now, located)]
  }

  // Claiming

  /** A lease that ran out on the last attempt. */
  predicate Exhausted(row: Row, now: int) {
    row.status == Leased && row.attempts >= MAX_ATTEMPTS && row.until.Some? && row.until.value <= now
  }

  function Swept(row: Row, now: int): Row {
    if Exhausted(row, now)
    then row.(status := Failed, code := "lease_expired", token := None, until := None, finished := Some(now))
    else row
  }

  function SweepTx(rows: Rows, now: int): Rows { map id | id in rows :: Swept(rows[id], now) }

  predicate Due(row: Row, now: int) {
    && row.attempts < MAX_ATTEMPTS
    && ((row.status == Pending && row.available <= now)
        || (row.status == Leased && row.until.Some? && row.until.value <= now))
  }

  predicate Before(rows: Rows, id: nat, other: nat)
    requires id in rows && other in rows
  {
    rows[id].available < rows[other].available || (rows[id].available == rows[other].available && id <= other)
  }

  /** The due job the claim takes: first by availability, then by id. */
  ghost predicate First(rows: Rows, now: int, id: nat) {
    && id in rows && Due(rows[id], now)
    && forall other :: other in rows && Due(rows[other], now) ==> Before(rows, id, other)
  }

  function LeaseTo(row: Row, token: string, now: int): Row {
    row.(status := Leased, token := Some(token), until := Some(now + LEASE), attempts := row.attempts + 1)
  }

  ghost function TakeTx(rows: Rows, now: int, token: string): (r: (Rows, Option<Claimed>)) {
    if id :| First(rows, now, id)
    then (rows[id := LeaseTo(rows[id], token, now)], Some(Claimed(id, token, rows[id].attempts + 1)))
    else (rows, None)
  }

  // Settling

  predicate Holds(rows: Rows, job: Claimed) {
    job.id in rows && rows[job.id].status == Leased && rows[job.id].token == Some(job.token)
  }

  function FinishRow(row: Row, status: Status, message: Option<string>, code: string, now: int): Row {
    var done := row.(status := status, code := code, token := None, until := None, finished := Some(now));
    if message.Some? then done.(message := message) else if row.located then done.(reply := None) else done
  }

  function FinishTx(rows: Rows, job: Claimed, status: Status, message: Option<string>, code: string, now: int): Rows {
    if Holds(rows, job) then rows[job.id := FinishRow(rows[job.id], status, message, code, now)] else rows
  }

  function BusyRow(row: Row, now: int): Row {
    row.(status := Pending, attempts := if row.attempts > 0 then row.attempts - 1 else 0, available := now + 5,
         code := "model_busy", token := None, until := None)
  }

  /** The decision and the delay use the attempts the worker was given with its claim. */
  function RetryRow(row: Row, attempts: nat, code: string, now: int): Row {
    var failed := attempts >= MAX_ATTEMPTS;
    row.(status := if failed then Failed else Pending, available := now + if attempts == 1 then 5 else 20,
         code := code, token := None, until := None, finished := Some(if failed then now else 0))
  }

  function RetryTx(rows: Rows, job: Claimed, code: string, now: int): Rows {
    if !Holds(rows, job) then rows
    else if code == "model_busy" then rows[job.id := BusyRow(rows[job.id], now)]
    else rows[job.id := RetryRow(rows[job.id], job.attempts, code, now)]
  }

  /** The location cleanup takes the cached reply of a located job that has published nothing. */
  function Purged(row: Row): Row { if row.located && row.message.None? then row.(reply := None) else row }

  function PurgeTx(rows: Rows, gone: set<nat>): Rows {
    map id | id in rows :: if id in gone then Purged(rows[id]) else rows[id]
  }

  const SKIPPING: set<string> := {"followup_not_relevant", "location_changed"}
  const FATAL: set<string> := {
    "configuration_invalid", "model_invalid_reply", "model_canned_reply", "agent_invalid", "channel_invalid",
    "parent_invalid", "weather_unavailable", "weather_contract", "weather_stale", "weather_location",
    "weather_timezone", "weather_timestamp", "weather_forecast", "ferry_unavailable", "ferry_configuration",
    "ferry_contract", "ferry_stale", "ferry_timestamp", "ferry_port", "ferry_date", "vision_source_changed",
    "observations_unavailable", "observations_invalid"}

  /** What becomes of a job whose processing stopped with an error code. */
  function SettleTx(rows: Rows, job: Claimed, code: string, now: int): Rows {
    if code in SKIPPING then FinishTx(rows, job, Skipped, None, code, now)
    else if code in FATAL then FinishTx(rows, job, Failed, None, code, now)
    else RetryTx(rows, job, code, now)
  }

  lemma FirstIsUnique(rows: Rows, now: int, id: nat, other: nat)
    requires First(rows, now, id) && First(rows, now, other)
    ensures id == other
  {
  }

  lemma Taken(rows: Rows, now: int, token: string, id: nat)
    requires First(rows, now, id)
    ensures TakeTx(rows, now, token) ==
      (rows[id := LeaseTo(rows[id], token, now)], Some(Claimed(id, token, rows[id].attempts + 1)))
  {
    var chosen :| First(rows, now, chosen)
      && TakeTx(rows, now, token).0 == rows[chosen := LeaseTo(rows[chosen], token, now)]
      && TakeTx(rows, now, token).1 == Some(Claimed(chosen, token, rows[chosen].attempts + 1));
    FirstIsUnique(rows, now, id, chosen);
  }
}
