/** Runs of the chat agent scheduler: any number of workers that claim, settle once, twice or
    never, at any reading of the clock. */
module AgentRuns {
  import opened Options
  import opened AgentJobs

  /** workers are all claims ever handed out, drawn all tokens ever used; claims and busies count,
      per job, the claims of it and the settlements that found the model busy. */
  datatype System = System(rows: Rows, workers: set<Claimed>, drawn: set<string>, claims: map<nat, nat>,
    busies: map<nat, nat>)

  datatype Event =
    | Enqueue(id: nat, agent: string, source: string, now: int, located: bool)
    | Purge(gone: set<nat>)
    | Sweep(now: int)
    | Take(now: int, token: string)
    | StoreReply(job: Claimed, body: Option<string>)
    | Complete(job: Claimed, message: string, now: int)
    | SkipChanged(job: Claimed, now: int)
    | Settle(job: Claimed, code: string, now: int)

  const Init := System(map[], {}, {}, map[], map[])

  predicate Settles(e: Event) { e.Complete? || e.SkipChanged? || e.Settle? }

  predicate Enabled(s: System, e: Event) {
    match e
    case Enqueue(id, _, _, _, _) => id !in s.rows
    case Purge(_) => true
    case Sweep(_) => true
    case Take(_, token) => token !in s.drawn
    case StoreReply(job, _) => job in s.workers
    case Complete(job, _, _) => job in s.workers
    case SkipChanged(job, _) => job in s.workers
    case Settle(job, _, _) => job in s.workers
  }

  ghost function RowsAfter(s: System, e: Event): Rows {
    match e
    case Enqueue(id, agent, source, now, located) => EnqueueTx(s.rows, id, agent, source, now, located)
    case Purge(gone) => PurgeTx(s.rows, gone)
    case Sweep(now) => SweepTx(s.rows, now)
    case Take(now, token) => TakeTx(s.rows, now, token).0
    case StoreReply(job, body) => if Holds(s.rows, job) then s.rows[job.id := s.rows[job.id].(reply := body)]
      else s.rows
    case Complete(job, message, now) => FinishTx(s.rows, job, Completed, Some(message), "", now)
    case SkipChanged(job, now) => FinishTx(s.rows, job, Skipped, None, "source_changed", now)
    case Settle(job, code, now) => SettleTx(s.rows, job, code, now)
  }

  function Count(counts: map<nat, nat>, id: nat): nat { if id in counts then counts[id] else 0 }

  ghost function Next(s: System, e: Event): System {
    var rows := RowsAfter(s, e);
    match e
    case Take(now, token) =>
      var claimed := TakeTx(s.rows, now, token).1;
      if claimed.None? then s.(rows := rows, drawn := s.drawn + {token})
      else s.(rows := rows, drawn := s.drawn + {token}, workers := s.workers + {claimed.value},
              claims := s.claims[claimed.value.id := Count(s.claims, claimed.value.id) + 1])
    case Settle(job, "model_busy", _) =>
      if Holds(s.rows, job) then s.(rows := rows, busies := s.busies[job.id := Count(s.busies, job.id) + 1])
      else s.(rows := rows)
    case _ => s.(rows := rows)
  }

  // The invariant

  ghost predicate RowOk(row: Row) {
    && row.attempts <= MAX_ATTEMPTS
    && (row.status == Pending ==> row.attempts < MAX_ATTEMPTS)
    && (row.status == Leased ==> row.attempts > 0 && row.until.Some?)
    && (row.status == Leased <==> row.token.Some?)
  }

  ghost predicate WorkerOk(s: System, w: Claimed) {
    && w.token in s.drawn
    && w.id in s.rows
    && (Holds(s.rows, w) ==> s.rows[w.id].attempts == w.attempts)
    && forall id :: id in s.rows && s.rows[id].token == Some(w.token) ==> id == w.id
  }

  ghost predicate JobOk(s: System, id: nat)
    requires id in s.rows
  {
    && RowOk(s.rows[id])
    && s.rows[id].attempts + Count(s.busies, id) == Count(s.claims, id)
    && (s.rows[id].token.Some? ==> s.rows[id].token.value in s.drawn)
  }

  ghost predicate Inv(s: System) {
    && (forall id :: id in s.rows ==> JobOk(s, id))
    && (forall w :: w in s.workers ==> WorkerOk(s, w))
    && (forall id :: id !in s.rows ==> Count(s.claims, id) == 0 && Count(s.busies, id) == 0)
    && OnePerMessage(s.rows)
  }

  // One event

  /** How one event changes a row: only its claim, its sweep, the holder of its token and the location
      cleanup do. */
  ghost predicate RowStep(s: System, e: Event, id: nat, row': Row)
    requires id in s.rows
  {
    var row := s.rows[id];
    if e.Sweep? then row' == Swept(row, e.now)
    else if e.Purge? then row' == if id in e.gone then Purged(row) else row
    else if e.Take? then row' == if First(s.rows, e.now, id) then LeaseTo(row, e.token, e.now) else row
    else if !Held(s, e, id) then row' == row
    else if e.StoreReply? then row' == row.(reply := e.body)
    else Settled(row, e, row')
  }

  ghost predicate Settled(row: Row, e: Event, row': Row)
    requires Settles(e)
  {
    if e.Settle? && e.code == "model_busy" then row' == BusyRow(row, e.now)
    else if e.Settle? && e.code !in SKIPPING && e.code !in FATAL
      then row' == RetryRow(row, e.job.attempts, e.code, e.now)
    else Finished(row'.status) && row'.attempts == row.attempts && row'.token.None?
  }

  ghost predicate Held(s: System, e: Event, id: nat) {
    (Settles(e) || e.StoreReply?) && e.job.id == id && Holds(s.rows, e.job)
  }

  lemma RowFate(s: System, e: Event, id: nat)
    requires id in s.rows && Enabled(s, e)
    ensures id in Next(s, e).rows && RowStep(s, e, id, Next(s, e).rows[id])
    ensures Next(s, e).rows[id].agent == s.rows[id].agent && Next(s, e).rows[id].source == s.rows[id].source
  {
    RowsOfNext(s, e);
    hide Next, First;
    if e.Take? { TakeFate(s.rows, e.now, e.token, id); }
    else if Settles(e) { SettleFate(s, e, id); }
  }

  lemma RowsOfNext(s: System, e: Event)
    ensures Next(s, e).rows == RowsAfter(s, e)
  {
    hide RowsAfter;
  }

  lemma TakeFate(rows: Rows, now: int, token: string, id: nat)
    requires id in rows
    ensures var rows' := TakeTx(rows, now, token).0;
      id in rows' && rows'[id] == if First(rows, now, id) then LeaseTo(rows[id], token, now) else rows[id]
  {
    if First(rows, now, id) { Taken(rows, now, token, id); }
  }

  lemma SettleFate(s: System, e: Event, id: nat)
    requires id in s.rows && Settles(e)
    ensures var rows' := RowsAfter(s, e);
      && id in rows' && rows'[id].agent == s.rows[id].agent && rows'[id].source == s.rows[id].source
      && if Held(s, e, id) then Settled(s.rows[id], e, rows'[id]) else rows'[id] == s.rows[id]
  {
  }

  /** The counters move exactly with the row they count for. */
  lemma CountFate(s: System, e: Event, id: nat)
    ensures Count(Next(s, e).claims, id) == Count(s.claims, id) + if e.Take? && First(s.rows, e.now, id) then 1 else 0
    ensures Count(Next(s, e).busies, id)
         == Count(s.busies, id) + if e.Settle? && e.code == "model_busy" && Held(s, e, id) then 1 else 0
  {
    if e.Take? {
      if first :| First(s.rows, e.now, first) {
        Taken(s.rows, e.now, e.token, first);
        if First(s.rows, e.now, id) { FirstIsUnique(s.rows, e.now, id, first); }
      }
    }
  }

  lemma DrawnGrows(s: System, e: Event)
    ensures s.drawn <= Next(s, e).drawn && s.workers <= Next(s, e).workers
    ensures e.Take? ==> e.token in Next(s, e).drawn
    ensures forall w :: w in Next(s, e).workers && w !in s.workers ==>
      e.Take? && w.token == e.token && First(s.rows, e.now, w.id) && w.attempts == s.rows[w.id].attempts + 1
  {
  }

  lemma NewRow(s: System, e: Event, id: nat)
    requires id !in s.rows
    ensures id in Next(s, e).rows ==>
      && e.Enqueue? && e.id == id && Next(s, e).rows[id] == Fresh(e.agent, e.source, e.now, e.located)
      && !HasJob(s.rows, e.agent, e.source)
  {
  }

  lemma JobKept(s: System, e: Event, id: nat)
    requires Inv(s) && Enabled(s, e) && id in Next(s, e).rows
    ensures JobOk(Next(s, e), id)
  {
    hide Next, First;
    CountFate(s, e, id);
    DrawnGrows(s, e);
    if id !in s.rows {
      NewRow(s, e, id);
    } else {
      assert JobOk(s, id);
      RowFate(s, e, id);
      if Held(s, e, id) { assert WorkerOk(s, e.job); }
      if e.Take? { TakenIsDue(s, e, id); }
    }
  }

  lemma TakenIsDue(s: System, e: Event, id: nat)
    requires id in s.rows && e.Take?
    ensures First(s.rows, e.now, id) ==> s.rows[id].attempts < MAX_ATTEMPTS
  {
  }

  lemma WorkerKept(s: System, e: Event, w: Claimed)
    requires Inv(s) && Enabled(s, e) && w in Next(s, e).workers
    ensures WorkerOk(Next(s, e), w)
  {
    hide Next, First, Settled;
    var s' := Next(s, e);
    DrawnGrows(s, e);
    if w in s.workers {
      assert WorkerOk(s, w);
      RowFate(s, e, w.id);
      SettledDropsToken(s, e);
    } else {
      TakenRow(s, e, w.id);
      RowFate(s, e, w.id);
    }
    forall id | id in s'.rows && s'.rows[id].token == Some(w.token) ensures id == w.id {
      TokenFrom(s, e, id);
      if w !in s.workers && id in s.rows && First(s.rows, e.now, id) { FirstIsUnique(s.rows, e.now, id, w.id); }
      if id in s.rows { assert JobOk(s, id); }
    }
  }

  lemma TakenRow(s: System, e: Event, id: nat)
    requires e.Take? && First(s.rows, e.now, id)
    ensures id in s.rows
  {
  }

  lemma SettledDropsToken(s: System, e: Event)
    ensures Settles(e) ==> forall row, row' :: Settled(row, e, row') ==> row'.token.None?
  {
  }

  /** A row's token is the one it had, or the one its claim has just drawn. */
  lemma TokenFrom(s: System, e: Event, id: nat)
    requires Enabled(s, e) && id in Next(s, e).rows && Next(s, e).rows[id].token.Some?
    ensures id in s.rows
    ensures Next(s, e).rows[id].token == s.rows[id].token
         || (e.Take? && First(s.rows, e.now, id) && Next(s, e).rows[id].token == Some(e.token))
  {
    hide Next, First;
    if id in s.rows { RowFate(s, e, id); } else { NewRow(s, e, id); }
  }

  lemma InvKept(s: System, e: Event)
    requires Inv(s) && Enabled(s, e)
    ensures Inv(Next(s, e))
  {
    hide Next, First, JobOk, WorkerOk, Enabled;
    OnePerMessageKept(s, e);
    forall id | id in Next(s, e).rows ensures JobOk(Next(s, e), id) { JobKept(s, e, id); }
    forall w | w in Next(s, e).workers ensures WorkerOk(Next(s, e), w) { WorkerKept(s, e, w); }
    forall id | id !in Next(s, e).rows ensures Count(Next(s, e).claims, id) == 0 && Count(Next(s, e).busies, id) == 0 {
      CountFate(s, e, id);
      if id in s.rows { RowFate(s, e, id); }
      UncountedUnlessPresent(s, e, id);
    }
  }

  /** An event adds a row only for a pair that had none, and no row changes its pair. */
  lemma OnePerMessageKept(s: System, e: Event)
    requires OnePerMessage(s.rows) && Enabled(s, e)
    ensures OnePerMessage(Next(s, e).rows)
  {
    hide Next, RowStep, Enabled;
    var rows' := Next(s, e).rows;
    forall id, other | id in rows' && other in rows' && IsFor(rows'[id], rows'[other].agent, rows'[other].source)
      ensures id == other
    {
      if id in s.rows { RowFate(s, e, id); } else { NewRow(s, e, id); }
      if other in s.rows { RowFate(s, e, other); } else { NewRow(s, e, other); }
    }
  }

  lemma UncountedUnlessPresent(s: System, e: Event, id: nat)
    requires id !in s.rows
    ensures !(e.Take? && First(s.rows, e.now, id)) && !Held(s, e, id)
  {
  }

  // Whole runs

  ghost predicate IsRun(states: seq<System>, events: seq<Event>) {
    && |states| == |events| + 1 && states[0] == Init
    && forall i {:trigger events[i]} :: 0 <= i < |events| ==>
      Enabled(states[i], events[i]) && states[i + 1] == Next(states[i], events[i])
  }

  lemma {:induction false} RunInv(states: seq<System>, events: seq<Event>, i: nat)
    requires IsRun(states, events) && i < |states|
    ensures Inv(states[i])
  {
    hide Inv, Next, Enabled;
    if i == 0 {
      InitInv();
    } else {
      RunInv(states, events, i - 1);
      assert events[i - 1] == events[i - 1];
      InvKept(states[i - 1], events[i - 1]);
    }
  }

  lemma InitInv()
    ensures Inv(Init)
  {
  }

  /** Over every run the attempts of a job are its claims less the busy settlements, never more
      than three, and fewer while it is pending. */
  lemma AttemptsCountClaims(states: seq<System>, events: seq<Event>, i: nat, id: nat)
    requires IsRun(states, events) && i < |states| && id in states[i].rows
    ensures var row := states[i].rows[id];
      && row.attempts == Count(states[i].claims, id) - Count(states[i].busies, id)
      && row.attempts <= MAX_ATTEMPTS && (row.status == Pending ==> row.attempts < MAX_ATTEMPTS)
      && (row.status == Leased ==> row.attempts >= 1)
  {
    hide Next, WorkerOk;
    RunInv(states, events, i);
    assert JobOk(states[i], id);
  }

  /** Of a finished job only the cached reply ever changes, and only by being cleared when the job is
      located and has published nothing. */
  ghost predicate Absorbed(row: Row, row': Row) {
    && row' == row.(reply := row'.reply)
    && (row'.reply == row.reply || (row.located && row.message.None? && row'.reply.None?))
  }

  lemma {:induction false} FinishedForever(states: seq<System>, events: seq<Event>, i: nat, j: nat, id: nat)
    requires IsRun(states, events) && i <= j < |states|
    requires id in states[i].rows && Finished(states[i].rows[id].status)
    ensures id in states[j].rows && Absorbed(states[i].rows[id], states[j].rows[id])
    decreases j - i
  {
    hide Next, Inv, Enabled;
    if i < j {
      assert events[i] == events[i];
      RowFate(states[i], events[i], id);
      FinishedForever(states, events, i + 1, j, id);
    }
  }

  lemma {:induction false} PairStays(states: seq<System>, events: seq<Event>, i: nat, j: nat, id: nat)
    requires IsRun(states, events) && i <= j < |states| && id in states[i].rows
    ensures id in states[j].rows && IsFor(states[j].rows[id], states[i].rows[id].agent, states[i].rows[id].source)
    decreases j - i
  {
    hide Next, Inv, Enabled, RowStep;
    if i < j {
      assert events[i] == events[i];
      RowFate(states[i], events[i], id);
      PairStays(states, events, i + 1, j, id);
    }
  }

  /** Over a whole run an agent gets at most one job for a source message, also after that job is finished. */
  lemma OneJobPerMessage(states: seq<System>, events: seq<Event>, i: nat, j: nat, id: nat, other: nat)
    requires IsRun(states, events) && i <= j < |states| && id in states[i].rows && other in states[j].rows
    requires IsFor(states[j].rows[other], states[i].rows[id].agent, states[i].rows[id].source)
    ensures id == other
  {
    hide Next, Enabled, JobOk, WorkerOk;
    PairStays(states, events, i, j, id);
    RunInv(states, events, j);
  }

  /** A token that has left its job does not come back to any job, so nothing settled or stored with
      it later has an effect: only the current holder settles, and only once. */
  lemma {:induction false} OldTokenIsDead(states: seq<System>, events: seq<Event>, i: nat, j: nat, w: Claimed)
    requires IsRun(states, events) && i <= j < |states|
    requires w in states[i].workers && !Holds(states[i].rows, w)
    ensures w in states[j].workers && !Holds(states[j].rows, w)
    ensures j < |events| && (Settles(events[j]) || events[j].StoreReply?) && events[j].job == w ==>
      states[j + 1].rows == states[j].rows
    decreases j - i
  {
    hide Next, Inv;
    if i < j {
      assert events[i] == events[i];
      RunInv(states, events, i);
      DrawnGrows(states[i], events[i]);
      WorkerTokenDrawn(states[i], w);
      if Holds(states[i + 1].rows, w) {
        TokenFrom(states[i], events[i], w.id);
        RunInv(states, events, i + 1);
        LeaseHasToken(states[i], w.id);
      }
      OldTokenIsDead(states, events, i + 1, j, w);
    } else if j < |events| && (Settles(events[j]) || events[j].StoreReply?) && events[j].job == w {
      assert events[j] == events[j];
      NothingHeld(states[j], events[j]);
    }
  }

  lemma WorkerTokenDrawn(s: System, w: Claimed)
    requires Inv(s) && w in s.workers
    ensures w.token in s.drawn
  {
    assert WorkerOk(s, w);
  }

  lemma LeaseHasToken(s: System, id: nat)
    requires Inv(s) && id in s.rows
    ensures s.rows[id].status == Leased <==> s.rows[id].token.Some?
  {
    assert JobOk(s, id);
  }

  lemma NothingHeld(s: System, e: Event)
    requires (Settles(e) || e.StoreReply?) && !Holds(s.rows, e.job)
    ensures Next(s, e).rows == s.rows
  {
  }

  /** Settling by the holder takes the token away. */
  lemma SettlingEndsHold(states: seq<System>, events: seq<Event>, i: nat)
    requires IsRun(states, events) && i < |events| && Settles(events[i])
    ensures events[i].job in states[i + 1].workers && !Holds(states[i + 1].rows, events[i].job)
  {
    hide Next, Inv, First;
    var w := events[i].job;
    DrawnGrows(states[i], events[i]);
    if w.id in states[i].rows { RowFate(states[i], events[i], w.id); } else { NewRow(states[i], events[i], w.id); }
  }

  // No job is stuck

  /** From when on an unfinished job waits for a claim. */
  function Deadline(row: Row): int {
    if row.status == Leased && row.until.Some? then row.until.value else row.available
  }

  ghost function DueSet(rows: Rows, now: int): set<nat> { set id | id in rows && Due(rows[id], now) }

  /** Claims in a row at one reading of the clock, with nothing in between. */
  ghost function Drain(rows: Rows, now: int, tokens: seq<string>): Rows {
    if tokens == [] then rows else Drain(TakeTx(SweepTx(rows, now), now, tokens[0]).0, now, tokens[1..])
  }

  /** If jobs are due, one of them is first. */
  lemma {:induction false} SomeFirst(rows: Rows, now: int, ids: set<nat>) returns (id: nat)
    requires ids != {} && forall other :: other in ids ==> other in rows && Due(rows[other], now)
    ensures id in ids && forall other :: other in ids ==> Before(rows, id, other)
    decreases ids
  {
    var pick :| pick in ids;
    var rest := ids - {pick};
    id := pick;
    if rest != {} {
      var best := SomeFirst(rows, now, rest);
      if Before(rows, best, pick) { id := best; }
    }
    forall other | other in ids ensures Before(rows, id, other) {
      assert other == pick || other in rest;
    }
  }

  ghost predicate TakesOut(rows: Rows, now: int, token: string, id: nat, rows': Rows) {
    && First(rows, now, id)
    && rows' == SweepTx(rows, now)[id := LeaseTo(rows[id], token, now)]
    && DueSet(rows', now) == DueSet(rows, now) - {id}
  }

  /** One claim takes the first due job out of the due ones and leaves the others due. */
  lemma ClaimTakesOne(rows: Rows, now: int, token: string)
    ensures var rows' := TakeTx(SweepTx(rows, now), now, token).0;
      && rows'.Keys == rows.Keys
      && (DueSet(rows, now) == {} ==> DueSet(rows', now) == {} && rows' == SweepTx(rows, now))
      && (DueSet(rows, now) != {} ==> exists id :: TakesOut(rows, now, token, id, rows'))
  {
    var swept := SweepTx(rows, now);
    assert DueSet(swept, now) == DueSet(rows, now);
    if DueSet(rows, now) != {} {
      var id := SomeFirst(rows, now, DueSet(rows, now));
      assert First(rows, now, id) && First(swept, now, id);
      Taken(swept, now, token, id);
      assert TakesOut(rows, now, token, id, TakeTx(swept, now, token).0);
    } else {
      forall id ensures !First(swept, now, id) { assert id !in DueSet(swept, now); }
    }
  }

  /** The claim's row for a job the sweep and the due order have settled. */
  ghost predicate Served(row: Row, row': Row, now: int, tokens: seq<string>) {
    if Exhausted(row, now) then row' == Swept(row, now)
    else exists k :: 0 <= k < |tokens| && row' == LeaseTo(row, tokens[k], now)
  }

  /** A job the claims have reached is left alone by further claims at the same moment. */
  lemma {:induction false} ServedStays(rows: Rows, now: int, tokens: seq<string>, id: nat)
    requires id in rows && !Due(rows[id], now) && !Exhausted(rows[id], now)
    ensures id in Drain(rows, now, tokens) && Drain(rows, now, tokens)[id] == rows[id]
    decreases tokens
  {
    if tokens != [] {
      ClaimTakesOne(rows, now, tokens[0]);
      ServedStays(TakeTx(SweepTx(rows, now), now, tokens[0]).0, now, tokens[1..], id);
    }
  }

  /** As many claims as there are due jobs reach every unfinished job whose deadline has passed: it
      is leased anew, or failed when its last attempt ran out. */
  lemma {:induction false} EveryJobIsServed(rows: Rows, now: int, tokens: seq<string>, id: nat)
    requires id in rows && RowOk(rows[id]) && !Finished(rows[id].status) && Deadline(rows[id]) <= now
    requires 0 < |tokens| && |DueSet(rows, now)| <= |tokens|
    ensures id in Drain(rows, now, tokens) && Served(rows[id], Drain(rows, now, tokens)[id], now, tokens)
    decreases tokens
  {
    var rows' := TakeTx(SweepTx(rows, now), now, tokens[0]).0;
    ClaimTakesOne(rows, now, tokens[0]);
    if Exhausted(rows[id], now) {
      assert rows'[id] == Swept(rows[id], now);
      ServedStays(rows', now, tokens[1..], id);
    } else {
      assert id in DueSet(rows, now);
      var first :| TakesOut(rows, now, tokens[0], first, rows');
      assert first in DueSet(rows, now);
      if first == id {
        ServedStays(rows', now, tokens[1..], id);
        assert Served(rows[id], LeaseTo(rows[id], tokens[0], now), now, tokens);
      } else {
        assert rows'[id] == rows[id] && id in DueSet(rows', now);
        EveryJobIsServed(rows', now, tokens[1..], id);
        var k :| 0 <= k < |tokens[1..]| && Drain(rows', now, tokens[1..])[id] == LeaseTo(rows[id], tokens[1..][k], now);
        assert tokens[k + 1] == tokens[1..][k];
      }
    }
  }

  /** In every reachable state an unfinished job has a deadline, after which enough claims serve it. */
  lemma NoJobIsStuck(states: seq<System>, events: seq<Event>, i: nat, id: nat, now: int, tokens: seq<string>)
    requires IsRun(states, events) && i < |states| && id in states[i].rows && !Finished(states[i].rows[id].status)
    ensures states[i].rows[id].status == Leased ==> states[i].rows[id].until.Some?
    ensures Deadline(states[i].rows[id]) <= now && 0 < |tokens| && |DueSet(states[i].rows, now)| <= |tokens| ==>
      id in Drain(states[i].rows, now, tokens)
        && Served(states[i].rows[id], Drain(states[i].rows, now, tokens)[id], now, tokens)
  {
    RunInv(states, events, i);
    assert JobOk(states[i], id);
    hide Next, Inv, Drain, DueSet, Served;
    if Deadline(states[i].rows[id]) <= now && 0 < |tokens| && |DueSet(states[i].rows, now)| <= |tokens| {
      EveryJobIsServed(states[i].rows, now, tokens, id);
    }
  }

  // The claims are events of a run

  /** Tokens that a worker may draw next. */
  ghost predicate Unused(s: System, tokens: seq<string>) {
    && (forall k :: 0 <= k < |tokens| ==> tokens[k] !in s.drawn)
    && (forall k, l :: 0 <= k < l < |tokens| ==> tokens[k] != tokens[l])
  }

  lemma OneMore(states: seq<System>, events: seq<Event>, e: Event)
    requires IsRun(states, events) && Enabled(states[|events|], e)
    ensures IsRun(states + [Next(states[|events|], e)], events + [e])
  {
    hide Next, Enabled;
  }

  /** One claim: its sweep and its take. */
  lemma ClaimIsRun(states: seq<System>, events: seq<Event>, now: int, tokens: seq<string>)
    returns (states': seq<System>, events': seq<Event>)
    requires IsRun(states, events) && tokens != [] && Unused(states[|events|], tokens)
    ensures IsRun(states', events') && states <= states' && events <= events'
    ensures var s, s' := states[|events|], states'[|events'|];
      s'.rows == TakeTx(SweepTx(s.rows, now), now, tokens[0]).0 && Unused(s', tokens[1..])
  {
    var s := states[|events|];
    var swept := Next(s, Sweep(now));
    var taken := Next(swept, Take(now, tokens[0]));
    OneMore(states, events, Sweep(now));
    OneMore(states + [swept], events + [Sweep(now)], Take(now, tokens[0]));
    states', events' := states + [swept] + [taken], events + [Sweep(now)] + [Take(now, tokens[0])];
    hide IsRun, TakeTx;
  }

  /** Every run can be continued by these claims, with any unused tokens, to the drained table. */
  lemma {:induction false} DrainIsRun(states: seq<System>, events: seq<Event>, now: int, tokens: seq<string>)
    returns (states': seq<System>, events': seq<Event>)
    requires IsRun(states, events) && Unused(states[|events|], tokens)
    ensures IsRun(states', events') && states <= states' && events <= events'
    ensures states'[|events'|].rows == Drain(states[|events|].rows, now, tokens)
    decreases tokens
  {
    states', events' := states, events;
    if tokens != [] {
      states', events' := ClaimIsRun(states, events, now, tokens);
      var further, last := DrainIsRun(states', events', now, tokens[1..]);
      states', events' := further, last;
    }
  }

  /** From every reachable state the run goes on so that an overdue unfinished job is served. */
  lemma JobGetsServed(states: seq<System>, events: seq<Event>, id: nat, now: int, tokens: seq<string>)
    returns (states': seq<System>, events': seq<Event>)
    requires IsRun(states, events) && Unused(states[|events|], tokens)
    requires var s := states[|events|];
      && id in s.rows && !Finished(s.rows[id].status)
      && Deadline(s.rows[id]) <= now && 0 < |tokens| && |DueSet(s.rows, now)| <= |tokens|
    ensures IsRun(states', events') && states <= states' && events <= events'
    ensures id in states'[|events'|].rows
    ensures Served(states[|events|].rows[id], states'[|events'|].rows[id], now, tokens)
  {
    assert |states| == |events| + 1;
    hide IsRun, Drain, DueSet, Served, Unused;
    states', events' := DrainIsRun(states, events, now, tokens);
    NoJobIsStuck(states, events, |events|, id, now, tokens);
  }
}
