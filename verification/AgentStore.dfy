/** The chat agent job table, changed in place. */
module AgentStore {
  import opened Options
  import opened AgentJobs

  class JobTable {
    var rows: Rows

    constructor ()
      ensures rows == map[]
    {
      rows := map[];
    }

    method Find(agent: string, source: string) returns (found: bool)
      ensures found <==> HasJob(rows, agent, source)
    {
      found := false;
      var left := rows.Keys;
      while left != {}
        invariant left <= rows.Keys
        invariant found ==> HasJob(rows, agent, source)
        invariant forall id :: id in rows && id !in left && IsFor(rows[id], agent, source) ==> found
        decreases left
      {
        var id :| id in left;
        if IsFor(rows[id], agent, source) { found := true; }
        left := left - {id};
      }
    }

    /** Afterwards the agent has exactly one job for the message: the one it had, untouched, or a new
        one that is due at once. */
    method Enqueue(id: nat, agent: string, source: string, now: int, located: bool)
      requires OnePerMessage(rows) && id !in rows
      modifies this
      ensures OnePerMessage(rows) && HasJob(rows, agent, source)
      ensures forall other :: other in old(rows) ==> other in rows && rows[other] == old(rows)[other]
      ensures forall other :: other in rows && other !in old(rows) ==>
        other == id && IsFor(rows[id], agent, source) && rows[id].attempts == 0 && Due(rows[id], now)
      ensures rows == EnqueueTx(old(rows), id, agent, source, now, located)
    {
      var found := Find(agent, source);
      if found { return; }
      rows := rows[id := Row(agent, source, Pending, 0, now, None, None, located, None, None, "", None)];
      assert IsFor(rows[id], agent, source);
    }

    /** The location cleanup, over the jobs whose share is gone. */
    method Purge(gone: set<nat>)
      modifies this
      ensures rows == PurgeTx(old(rows), gone)
    {
      var left := rows.Keys * gone;
      while left != {}
        invariant left <= old(rows).Keys * gone && rows.Keys == old(rows).Keys
        invariant forall id :: id in rows ==>
          rows[id] == if id in gone && id !in left then Purged(old(rows)[id]) else old(rows)[id]
        decreases left
      {
        var id :| id in left;
        if rows[id].located && rows[id].message.None? { rows := rows[id := rows[id].(reply := None)]; }
        left := left - {id};
      }
    }

    /** Fail every job whose last lease ran out. */
    method Sweep(now: int)
      modifies this
      ensures rows == SweepTx(old(rows), now)
    {
      var left := rows.Keys;
      while left != {}
        invariant left <= old(rows).Keys == rows.Keys
        invariant forall id :: id in rows ==>
          rows[id] == if id in left then old(rows)[id] else Swept(old(rows)[id], now)
        decreases left
      {
        var id :| id in left;
        rows := rows[id := Swept(rows[id], now)];
        left := left - {id};
      }
    }

    /** The first due job, if any. */
    method FindDue(now: int) returns (best: Option<nat>)
      ensures best.Some? ==> First(rows, now, best.value)
      ensures best.None? ==> forall id :: id in rows ==> !Due(rows[id], now)
    {
      best := None;
      var left := rows.Keys;
      while left != {}
        invariant left <= rows.Keys
        invariant best.Some? ==> best.value in rows && Due(rows[best.value], now)
        invariant forall id :: id in rows && id !in left && Due(rows[id], now) ==>
          best.Some? && Before(rows, best.value, id)
        decreases left
      {
        var id :| id in left;
        if Due(rows[id], now) && (best.None? || Before(rows, id, best.value)) { best := Some(id); }
        left := left - {id};
      }
    }

    method Claim(now: int, token: string) returns (claimed: Option<Claimed>)
      modifies this
      ensures (rows, claimed) == TakeTx(SweepTx(old(rows), now), now, token)
    {
      Sweep(now);
      var best := FindDue(now);
      if best.None? { return None; }
      var id := best.value;
      Taken(rows, now, token, id);
      rows := rows[id := LeaseTo(rows[id], token, now)];
      return Some(Claimed(id, token, rows[id].attempts));
    }

    method Finish(job: Claimed, status: Status, message: Option<string>, code: string, now: int)
      modifies this
      ensures rows == FinishTx(old(rows), job, status, message, code, now)
    {
      if !Holds(rows, job) { return; }
      var row := rows[job.id].(status := status, code := code, token := None, until := None, finished := Some(now));
      if message.Some? {
        row := row.(message := message);
      } else if row.located {
        row := row.(reply := None);
      }
      rows := rows[job.id := row];
    }

    method Retry(job: Claimed, code: string, now: int)
      modifies this
      ensures rows == RetryTx(old(rows), job, code, now)
    {
      if !Holds(rows, job) { return; }
      if code == "model_busy" {
        rows := rows[job.id := BusyRow(rows[job.id], now)];
        return;
      }
      rows := rows[job.id := RetryRow(rows[job.id], job.attempts, code, now)];
    }

    /** The settlement after processing stopped with an error code. */
    method Settle(job: Claimed, code: string, now: int)
      modifies this
      ensures rows == SettleTx(old(rows), job, code, now)
    {
      if code in SKIPPING {
        Finish(job, Skipped, None, code, now);
      } else if code in FATAL {
        Finish(job, Failed, None, code, now);
      } else {
        Retry(job, code, now);
      }
    }
  }
}
