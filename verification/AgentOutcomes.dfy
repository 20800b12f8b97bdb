/** What every event of a run makes of a chat agent job, column by column: who takes it and for how long, which
    error codes end it and how, and when the others let it run again. */
module AgentOutcomes {
  import opened Options
  import opened AgentJobs
  import opened AgentRuns

  /** Codes that end a job without a fault of the agent. */
  predicate EndsQuietly(code: string) { code == "followup_not_relevant" || code == "location_changed" }

  /** Codes that no repetition would change. */
  predicate EndsInFailure(code: string) {
    code in {
      "configuration_invalid", "model_invalid_reply", "model_canned_reply", "agent_invalid", "channel_invalid",
      "parent_invalid", "weather_unavailable", "weather_contract", "weather_stale", "weather_location",
      "weather_timezone", "weather_timestamp", "weather_forecast", "ferry_unavailable", "ferry_configuration",
      "ferry_contract", "ferry_stale", "ferry_timestamp", "ferry_port", "ferry_date", "vision_source_changed",
      "observations_unavailable", "observations_invalid"}
  }

  /** A finished job without its lease; a located one that publishes nothing loses its cached reply. */
  predicate EndsAs(row: Row, status: Status, code: string, now: int, row': Row) {
    row' == row.(
      status := status, code := code, token := None, until := None, finished := Some(now),
      reply := if row.located then None else row.reply)
  }

  /** A job that stopped with a code is over, or waits for its next attempt: five seconds after the first and
      when the model was busy, which costs no attempt, twenty after the second. The third was the last. */
  ghost predicate StopsWith(row: Row, code: string, now: int, row': Row) {
    var free := row.(code := code, token := None, until := None);
    if EndsQuietly(code) then EndsAs(row, Skipped, code, now, row')
    else if EndsInFailure(code) then EndsAs(row, Failed, code, now, row')
    else if code == "model_busy" then
      && row'.attempts == row.attempts - 1
      && row' == free.(status := Pending, attempts := row'.attempts, available := now + 5)
    else match row.attempts
      case 1 => row' == free.(status := Pending, available := now + 5, finished := Some(0))
      case 2 => row' == free.(status := Pending, available := now + 20, finished := Some(0))
      case _ => row' == free.(status := Failed, available := now + 20, finished := Some(now))
  }

  /** Waiting and available, or leased for too long, with attempts left. */
  predicate Ripe(row: Row, now: int) {
    && row.attempts < 3
    && ((row.status == Pending && row.available <= now)
        || (row.status == Leased && row.until.Some? && row.until.value <= now))
  }

  /** The job is ripe, and every other ripe one became available later, or at the same time with a higher id. */
  ghost predicate Earliest(rows: Rows, now: int, id: nat) {
    && id in rows && Ripe(rows[id], now)
    && forall other :: other in rows && other != id && Ripe(rows[other], now) ==>
         rows[id].available < rows[other].available || (rows[id].available == rows[other].available && id < other)
  }

  ghost predicate TimedOut(row: Row, now: int) {
    row.status == Leased && row.attempts == 3 && row.until.Some? && row.until.value <= now
  }

  /** The row after the event. A claim's holder is the only one who can settle it or store its reply. */
  ghost predicate Outcome(s: System, e: Event, id: nat, row': Row)
    requires id in s.rows
  {
    var row := s.rows[id];
    match e
    case Enqueue(_, _, _, _, _) => row' == row
    case Purge(gone) =>
      row' == if id in gone && row.located && row.message.None? then row.(reply := None) else row
    case Sweep(now) =>
      row' == if TimedOut(row, now)
        then row.(status := Failed, code := "lease_expired", token := None, until := None, finished := Some(now))
        else row
    case Take(now, token) =>
      row' == if Earliest(s.rows, now, id)
        then row.(status := Leased, token := Some(token), until := Some(now + 90), attempts := row.attempts + 1)
        else row
    case StoreReply(job, body) => row' == if HeldBy(row, id, job) then row.(reply := body) else row
    case Complete(job, message, now) =>
      row' == if HeldBy(row, id, job)
        then row.(status := Completed, message := Some(message), code := "", token := None, until := None,
                  finished := Some(now))
        else row
    case SkipChanged(job, now) =>
      if HeldBy(row, id, job) then EndsAs(row, Skipped, "source_changed", now, row') else row' == row
    case Settle(job, code, now) => if HeldBy(row, id, job) then StopsWith(row, code, now, row') else row' == row
  }

  predicate HeldBy(row: Row, id: nat, job: Claimed) {
    job.id == id && row.status == Leased && row.token == Some(job.token)
  }

  lemma SameFirst(rows: Rows, now: int, id: nat)
    ensures First(rows, now, id) <==> Earliest(rows, now, id)
  {
  }

  lemma SettleOutcome(s: System, e: Event, id: nat)
    requires id in s.rows && e.Settle? && RowOk(s.rows[id])
    requires HeldBy(s.rows[id], id, e.job) ==> s.rows[id].attempts == e.job.attempts
    ensures id in RowsAfter(s, e) && Outcome(s, e, id, RowsAfter(s, e)[id])
  {
    assert SKIPPING == {"followup_not_relevant", "location_changed"};
    assert EndsInFailure(e.code) <==> e.code in FATAL;
    hide EndsInFailure;
  }

  lemma FinishOutcome(
    rows: Rows, job: Claimed, status: Status, message: Option<string>, code: string, now: int, id: nat)
    requires id in rows
    ensures var rows' := FinishTx(rows, job, status, message, code, now);
      && id in rows'
      && if !HeldBy(rows[id], id, job) then rows'[id] == rows[id]
         else if message.None? then EndsAs(rows[id], status, code, now, rows'[id])
         else rows'[id] == rows[id].(
           status := status, message := message, code := code, token := None, until := None, finished := Some(now))
  {
  }

  lemma JobIsOk(s: System, id: nat)
    requires Inv(s) && id in s.rows
    ensures RowOk(s.rows[id])
  {
    assert JobOk(s, id);
  }

  lemma EventOutcome(s: System, e: Event, id: nat)
    requires Inv(s) && Enabled(s, e) && id in s.rows
    ensures id in Next(s, e).rows && Outcome(s, e, id, Next(s, e).rows[id])
  {
    hide Next, Inv, OnePerMessage, HasJob, First, Earliest, StopsWith, SettleTx, FinishTx, EndsAs;
    RowsOfNext(s, e);
    JobIsOk(s, id);
    match e
    case Complete(job, message, now) => FinishOutcome(s.rows, job, Completed, Some(message), "", now, id);
    case SkipChanged(job, now) => FinishOutcome(s.rows, job, Skipped, None, "source_changed", now, id);
    case Take(now, token) =>
      TakeFate(s.rows, now, token, id);
      SameFirst(s.rows, now, id);
      hide TakeTx;
    case Settle(job, _, _) =>
      WorkerAttempts(s, job);
      SettleOutcome(s, e, id);
      hide Outcome, RowsAfter;
    case _ =>
  }

  lemma WorkerAttempts(s: System, w: Claimed)
    requires Inv(s) && w in s.workers
    ensures w.id in s.rows && (HeldBy(s.rows[w.id], w.id, w) ==> s.rows[w.id].attempts == w.attempts)
  {
    assert WorkerOk(s, w);
  }

  /** Over every run each job is after each event exactly what the event makes of it, and a job that was not
      there is a new one for its agent and message, available at once. */
  lemma EveryOutcome(states: seq<System>, events: seq<Event>, i: nat, id: nat)
    requires IsRun(states, events) && i < |events|
    ensures id in states[i].rows ==>
      id in states[i + 1].rows && Outcome(states[i], events[i], id, states[i + 1].rows[id])
    ensures id !in states[i].rows && id in states[i + 1].rows ==>
      && var e, row := events[i], states[i + 1].rows[id];
      && e.Enqueue? && row.agent == e.agent && row.source == e.source && row.status == Pending && row.attempts == 0
      && row.available == e.now && row.located == e.located && row.token.None? && row.until.None? && row.reply.None?
      && row.message.None? && row.finished.None?
    ensures events[i].Enqueue? ==> HasJob(states[i + 1].rows, events[i].agent, events[i].source)
  {
    hide Next, Inv, Outcome, Enabled;
    RunInv(states, events, i);
    assert events[i] == events[i];
    if id in states[i].rows { EventOutcome(states[i], events[i], id); } else { NewRow(states[i], events[i], id); }
    if events[i].Enqueue? { EnqueuedIsThere(states[i], events[i]); }
  }

  lemma EnqueuedIsThere(s: System, e: Event)
    requires e.Enqueue?
    ensures HasJob(Next(s, e).rows, e.agent, e.source)
  {
    if HasJob(s.rows, e.agent, e.source) {
      var job :| job in s.rows && IsFor(s.rows[job], e.agent, e.source);
      assert job in Next(s, e).rows;
    } else {
      assert e.id in Next(s, e).rows;
    }
  }
}
