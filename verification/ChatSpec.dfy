/** What the chat actor announces: each message once while it is remembered, and a participant's
    first arrival and last departure. Presence is local to the process. */
module ChatSpec {

  const CACHE: nat := 4096

  datatype ChatEvent =
    | MessageAccepted(channel: string, message: nat)
    | ParticipantJoined(channel: string, user: string)
    | ParticipantLeft(channel: string, user: string)

  datatype Connection = Connection(channel: string, user: string, id: nat)

  // Messages

  /** The messages announced, in order. */
  function Announced(log: seq<ChatEvent>): seq<nat> {
    if log == [] then []
    else Announced(log[..|log| - 1]) + if log[|log| - 1].MessageAccepted? then [log[|log| - 1].message] else []
  }

  function Recent(ids: seq<nat>): seq<nat> { if |ids| <= CACHE then ids else ids[|ids| - CACHE..] }

  /** The rule: announce a message unless it is among the last 4096 announced. */
  function Publish(log: seq<ChatEvent>, channel: string, message: nat): seq<ChatEvent> {
    if message in Recent(Announced(log)) then log else log + [MessageAccepted(channel, message)]
  }

  // Presence

  predicate Present(open: set<Connection>, channel: string, user: string) {
    exists c <- open :: c.channel == channel && c.user == user
  }

  function Arrive(log: seq<ChatEvent>, open: set<Connection>, c: Connection): seq<ChatEvent> {
    if Present(open, c.channel, c.user) then log else log + [ParticipantJoined(c.channel, c.user)]
  }

  function Depart(log: seq<ChatEvent>, open: set<Connection>, c: Connection): seq<ChatEvent> {
    if Present(open, c.channel, c.user) && !Present(open - {c}, c.channel, c.user)
    then log + [ParticipantLeft(c.channel, c.user)] else log
  }

  // Runs

  datatype State = State(log: seq<ChatEvent>, open: set<Connection>)

  /** A leave may name a connection that was never opened or is already gone. */
  datatype Command =
    | Message(channel: string, message: nat)
    | Subscribe(connection: Connection)
    | Refused(connection: Connection)
    | Leave(connection: Connection)

  function Step(s: State, c: Command): State {
    match c
    case Message(channel, message) => s.(log := Publish(s.log, channel, message))
    case Subscribe(connection) => State(Arrive(s.log, s.open, connection), s.open + {connection})
    case Refused(_) => s
    case Leave(connection) => State(Depart(s.log, s.open, connection), s.open - {connection})
  }

  function Run(commands: seq<Command>): State {
    if commands == [] then State([], {}) else Step(Run(commands[..|commands| - 1]), commands[|commands| - 1])
  }

  // The announcements of a run

  lemma AnnouncedAppend(log: seq<ChatEvent>, e: ChatEvent)
    ensures Announced(log + [e]) == if e.MessageAccepted? then Announced(log) + [e.message] else Announced(log)
  {
    assert (log + [e])[..|log|] == log;
  }

  /** One command adds at most one announcement, and none that is among the last 4096. */
  lemma StepAnnounces(s: State, c: Command)
    ensures var ids, ids' := Announced(s.log), Announced(Step(s, c).log);
      || ids' == ids
      || (c.Message? && c.message !in Recent(ids) && ids' == ids + [c.message])
    ensures c.Message? && c.message !in Recent(Announced(s.log)) ==>
      Announced(Step(s, c).log) == Announced(s.log) + [c.message]
  {
    var s' := Step(s, c);
    if s'.log != s.log { AnnouncedAppend(s.log, s'.log[|s.log|]); }
  }

  /** Between two announcements of one message there are at least 4096 others. */
  lemma {:induction false} RepeatsAreFarApart(commands: seq<Command>, i: nat, j: nat)
    requires i < j < |Announced(Run(commands).log)|
    requires Announced(Run(commands).log)[i] == Announced(Run(commands).log)[j]
    ensures j - i - 1 >= 4096
    decreases |commands|
  {
    if commands != [] {
      var earlier, last := commands[..|commands| - 1], commands[|commands| - 1];
      var s := Run(earlier);
      StepAnnounces(s, last);
      var ids := Announced(s.log);
      if j < |ids| {
        RepeatsAreFarApart(earlier, i, j);
      } else {
        LastAreRecent(ids, i);
      }
    }
  }

  lemma LastAreRecent(ids: seq<nat>, k: nat)
    requires k < |ids|
    ensures |ids| - k <= CACHE ==> ids[k] in Recent(ids)
  {
    assert |ids| > CACHE && |ids| - k <= CACHE ==> Recent(ids)[k - (|ids| - CACHE)] == ids[k];
  }

  ghost predicate Published(commands: seq<Command>, id: nat) {
    exists c :: c in commands && c.Message? && c.message == id
  }

  lemma PublishedLast(commands: seq<Command>, id: nat)
    requires commands != []
    ensures var n := |commands| - 1;
      Published(commands, id) <==> Published(commands[..n], id) || (commands[n].Message? && commands[n].message == id)
  {
    var n := |commands| - 1;
    assert commands == commands[..n] + [commands[n]];
    assert forall c :: c in commands <==> c in commands[..n] || c == commands[n];
  }

  /** Exactly the messages that were published are announced. */
  lemma {:induction false} EveryMessageIsAnnounced(commands: seq<Command>, id: nat)
    ensures id in Announced(Run(commands).log) <==> Published(commands, id)
    decreases |commands|
  {
    if commands != [] {
      var earlier, last := commands[..|commands| - 1], commands[|commands| - 1];
      assert Run(commands) == Step(Run(earlier), last);
      EveryMessageIsAnnounced(earlier, id);
      StepAnnounces(Run(earlier), last);
      PublishedLast(commands, id);
      assert id in Recent(Announced(Run(earlier).log)) ==> id in Announced(Run(earlier).log);
      hide Run, Step, Announced, Recent, Published;
    }
  }

  /** The event that the command at n of the run adds to the log, if it adds one. */
  ghost predicate Causes(commands: seq<Command>, n: nat, e: ChatEvent)
    requires n < |commands|
  {
    CausedBy(Run(commands[..n]), commands[n], Run(commands[..n + 1]), e)
  }

  ghost predicate CausedBy(s: State, c: Command, s': State, e: ChatEvent) {
    match e
    case MessageAccepted(channel, message) => c == Message(channel, message)
    case ParticipantJoined(channel, user) =>
      && c.Subscribe? && c.connection.channel == channel && c.connection.user == user
      && !Present(s.open, channel, user) && Present(s'.open, channel, user)
    case ParticipantLeft(channel, user) =>
      && c.Leave? && c.connection.channel == channel && c.connection.user == user
      && Present(s.open, channel, user) && !Present(s'.open, channel, user)
  }

  /** Every event of the log was added by a command that calls for just that event, in the order of the commands. */
  lemma {:induction false} EveryEventHasCause(commands: seq<Command>, i: nat) returns (n: nat)
    requires i < |Run(commands).log|
    ensures n < |commands| && Causes(commands, n, Run(commands).log[i])
    ensures Run(commands[..n]).log == Run(commands).log[..i]
    ensures Run(commands[..n + 1]).log == Run(commands).log[..i + 1]
    decreases |commands|
  {
    hide Run, Step, CausedBy;
    LastStep(commands);
    n := |commands| - 1;
    var earlier := commands[..n];
    StepAppends(Run(earlier), commands[n]);
    if i < |Run(earlier).log| {
      n := EveryEventHasCause(earlier, i);
      assert earlier[..n] == commands[..n] && earlier[..n + 1] == commands[..n + 1];
    } else {
      assert commands[..n + 1] == commands;
      StepCauses(Run(earlier), commands[n]);
    }
  }

  lemma LastStep(commands: seq<Command>)
    ensures commands == [] ==> Run(commands).log == []
    ensures commands != [] ==> Run(commands) == Step(Run(commands[..|commands| - 1]), commands[|commands| - 1])
  {
  }

  /** The event a command adds is the one it calls for. */
  lemma StepCauses(s: State, c: Command)
    requires |s.log| < |Step(s, c).log|
    ensures CausedBy(s, c, Step(s, c), Step(s, c).log[|s.log|])
  {
  }

  lemma StepAppends(s: State, c: Command)
    ensures s.log <= Step(s, c).log && |Step(s, c).log| <= |s.log| + 1
  {
  }

  ghost predicate AmongLast(ids: seq<nat>, message: nat, n: nat) {
    exists k :: 0 <= k < |ids| && |ids| - k <= n && ids[k] == message
  }

  /** A message is announced, in its channel, exactly when it is not among the last 4096 announced. */
  lemma AnnouncedUnlessRecent(commands: seq<Command>, channel: string, message: nat)
    ensures var ids := Announced(Run(commands).log);
      Run(commands + [Message(channel, message)]).log ==
        if AmongLast(ids, message, 4096) then Run(commands).log
        else Run(commands).log + [MessageAccepted(channel, message)]
  {
    hide Run, Recent, Announced;
    RunAppend(commands, Message(channel, message));
    RecentAreLast(Announced(Run(commands).log), message);
  }

  lemma RunAppend(commands: seq<Command>, c: Command)
    ensures Run(commands + [c]) == Step(Run(commands), c)
  {
    assert (commands + [c])[..|commands|] == commands;
  }

  lemma RecentAreLast(ids: seq<nat>, message: nat)
    ensures message in Recent(ids) <==> AmongLast(ids, message, 4096)
  {
    forall k | 0 <= k < |ids| ensures |ids| - k <= 4096 ==> ids[k] in Recent(ids) { LastAreRecent(ids, k); }
    if message in Recent(ids) {
      var k :| 0 <= k < |Recent(ids)| && Recent(ids)[k] == message;
      assert ids[k + |ids| - |Recent(ids)|] == message;
    }
  }

  // Presence over a run

  /** A user's arrivals and departures in one channel: true for joined. */
  function Visits(log: seq<ChatEvent>, channel: string, user: string): seq<bool> {
    if log == [] then []
    else
      var e := log[|log| - 1];
      Visits(log[..|log| - 1], channel, user)
      + if e == ParticipantJoined(channel, user) then [true] else if e == ParticipantLeft(channel, user) then [false]
        else []
  }

  function Times(visits: seq<bool>, joined: bool): nat {
    if visits == [] then 0 else Times(visits[..|visits| - 1], joined) + if visits[|visits| - 1] == joined then 1 else 0
  }

  lemma VisitsAppend(log: seq<ChatEvent>, e: ChatEvent, channel: string, user: string)
    ensures Visits(log + [e], channel, user) == Visits(log, channel, user)
      + if e == ParticipantJoined(channel, user) then [true] else if e == ParticipantLeft(channel, user) then [false]
        else []
  {
    assert (log + [e])[..|log|] == log;
  }

  lemma TimesAppend(visits: seq<bool>, v: bool)
    ensures Times(visits + [v], true) == Times(visits, true) + if v then 1 else 0
    ensures Times(visits + [v], false) == Times(visits, false) + if v then 0 else 1
  {
    assert (visits + [v])[..|visits|] == visits;
  }

  predicate Alternates(visits: seq<bool>) { forall i :: 0 <= i < |visits| ==> (visits[i] <==> i % 2 == 0) }

  /** A connection is open when it was opened and not left since. */
  ghost predicate OpenedAt(commands: seq<Command>, c: Connection, i: nat) {
    i < |commands| && commands[i] == Subscribe(c) && forall k :: i < k < |commands| ==> commands[k] != Leave(c)
  }

  ghost predicate Opened(commands: seq<Command>, c: Connection) { exists i: nat :: OpenedAt(commands, c, i) }

  lemma OpenedLast(commands: seq<Command>, c: Connection)
    requires commands != []
    ensures var n := |commands| - 1;
      Opened(commands, c) <==> commands[n] == Subscribe(c) || (Opened(commands[..n], c) && commands[n] != Leave(c))
  {
    var n := |commands| - 1;
    forall i: nat | i < n
      ensures OpenedAt(commands, c, i) <==> OpenedAt(commands[..n], c, i) && commands[n] != Leave(c)
    {
      assert forall k :: i < k < n ==> commands[..n][k] == commands[k];
    }
    assert OpenedAt(commands, c, n) <==> commands[n] == Subscribe(c);
  }

  lemma {:induction false} OpenConnections(commands: seq<Command>, c: Connection)
    ensures c in Run(commands).open <==> Opened(commands, c)
    decreases |commands|
  {
    if commands != [] {
      assert Run(commands) == Step(Run(commands[..|commands| - 1]), commands[|commands| - 1]);
      hide Run, Opened;
      OpenConnections(commands[..|commands| - 1], c);
      OpenedLast(commands, c);
    }
  }

  /** The event a command appended, as a visit of the user. */
  lemma LogVisits(log: seq<ChatEvent>, log': seq<ChatEvent>, e: ChatEvent, channel: string, user: string)
    requires log' == log || log' == log + [e]
    ensures Visits(log', channel, user) == Visits(log, channel, user)
      + if log' == log then [] else if e == ParticipantJoined(channel, user) then [true]
        else if e == ParticipantLeft(channel, user) then [false] else []
  {
    VisitsAppend(log, e, channel, user);
  }

  lemma ArrivalVisits(s: State, c: Connection, channel: string, user: string)
    ensures var before, after := Present(s.open, channel, user), Present(s.open + {c}, channel, user);
      Visits(Arrive(s.log, s.open, c), channel, user) == Visits(s.log, channel, user) + if before == after then []
        else [after]
  {
    LogVisits(s.log, Arrive(s.log, s.open, c), ParticipantJoined(c.channel, c.user), channel, user);
    assert Present(s.open + {c}, channel, user) <==>
      Present(s.open, channel, user) || (c.channel == channel && c.user == user);
    hide Visits, Present;
  }

  lemma DepartureVisits(s: State, c: Connection, channel: string, user: string)
    ensures var before, after := Present(s.open, channel, user), Present(s.open - {c}, channel, user);
      Visits(Depart(s.log, s.open, c), channel, user) == Visits(s.log, channel, user) + if before == after then []
        else [after]
  {
    LogVisits(s.log, Depart(s.log, s.open, c), ParticipantLeft(c.channel, c.user), channel, user);
    OthersStay(s.open, c, channel, user);
    hide Visits, Present;
  }

  lemma OthersStay(open: set<Connection>, c: Connection, channel: string, user: string)
    ensures Present(open - {c}, channel, user) ==> Present(open, channel, user)
    ensures c.channel != channel || c.user != user ==>
      (Present(open - {c}, channel, user) <==> Present(open, channel, user))
  {
    if other :| other in open && other.channel == channel && other.user == user && other != c {
      assert other in open - {c};
    }
  }

  /** What one command does to a user's visits and presence. */
  lemma StepVisits(s: State, c: Command, channel: string, user: string)
    ensures var s' := Step(s, c);
      var before, after := Present(s.open, channel, user), Present(s'.open, channel, user);
      Visits(s'.log, channel, user) == Visits(s.log, channel, user) + if before == after then [] else [after]
  {
    hide Visits, Present, Arrive, Depart;
    match c
    case Message(channel', message) =>
      LogVisits(s.log, Step(s, c).log, MessageAccepted(channel', message), channel, user);
    case Subscribe(connection) => ArrivalVisits(s, connection, channel, user);
    case Refused(_) =>
    case Leave(connection) => DepartureVisits(s, connection, channel, user);
  }

  lemma OneMoreVisit(visits: seq<bool>, v: bool)
    requires Alternates(visits) && (|visits| % 2 == 1 <==> !v)
    requires Times(visits, true) - Times(visits, false) == if v then 0 else 1
    ensures Alternates(visits + [v]) && (|visits + [v]| % 2 == 1 <==> v)
    ensures Times(visits + [v], true) - Times(visits + [v], false) == if v then 1 else 0
  {
    TimesAppend(visits, v);
  }

  /** Over every run a user's joins and leaves of a channel alternate, starting with a join, and the
      joins are one ahead exactly while the user has an open connection there. */
  lemma {:induction false} VisitsAlternate(commands: seq<Command>, channel: string, user: string)
    ensures var visits := Visits(Run(commands).log, channel, user);
      && Alternates(visits)
      && Times(visits, true) - Times(visits, false) == (if Present(Run(commands).open, channel, user) then 1 else 0)
      && (|visits| % 2 == 1 <==> Present(Run(commands).open, channel, user))
    decreases |commands|
  {
    if commands != [] {
      var earlier, last := commands[..|commands| - 1], commands[|commands| - 1];
      assert Run(commands) == Step(Run(earlier), last);
      hide Run, Step, Present, Visits, Times, Alternates;
      VisitsAlternate(earlier, channel, user);
      StepVisits(Run(earlier), last, channel, user);
      var visits, after := Visits(Run(earlier).log, channel, user), Present(Run(commands).open, channel, user);
      if Present(Run(earlier).open, channel, user) == after { assert visits + [] == visits; }
      else { OneMoreVisit(visits, after); }
    }
  }
}
