/** The chat actor's caches, changed in place while it handles commands. */
module ChatActor {
  import opened ChatSpec

  type Participants = map<string, set<nat>>

  ghost predicate Remembers(messages: set<nat>, order: seq<nat>, announced: seq<nat>) {
    && order == Recent(announced)
    && (forall id :: id in messages <==> id in order)
    && (forall i, j :: 0 <= i < j < |order| ==> order[i] != order[j])
  }

  ghost predicate Occupied(channels: map<string, Participants>) {
    forall c, u :: c in channels && u in channels[c] ==> channels[c][u] != {}
  }

  ghost function Connections(channels: map<string, Participants>): set<Connection> {
    set c, u, id | c in channels && u in channels[c] && id in channels[c][u] :: Connection(c, u, id)
  }

  class Actor {
    var channels: map<string, Participants>
    var publishedMessages: set<nat>
    var publishedOrder: seq<nat>
    var log: seq<ChatEvent>

    /** The set and the queue both hold exactly the last 4096 announced messages, each once, and no
        participant is kept without a connection. */
    ghost predicate Valid()
      reads this
    {
      && Remembers(publishedMessages, publishedOrder, Announced(log))
      && Occupied(channels)
    }

    ghost function Open(): set<Connection>
      reads this
    {
      Connections(channels)
    }

    constructor ()
      ensures Valid() && log == [] && Open() == {}
    {
      channels, publishedMessages, publishedOrder, log := map[], {}, [], [];
    }

    method PublishMessage(channel: string, message: nat)
      requires Valid()
      modifies this
      ensures Valid()
      ensures log == Publish(old(log), channel, message)
      ensures Open() == old(Open())
    {
      hide Announced, Recent;
      assert message in publishedMessages <==> message in publishedOrder;
      if message in publishedMessages { return; }
      publishedMessages := publishedMessages + {message};
      if |publishedOrder| == CACHE {
        var expired := publishedOrder[0];
        publishedOrder := publishedOrder[1..];
        publishedMessages := publishedMessages - {expired};
      }
      publishedOrder := publishedOrder + [message];
      if channel !in channels { channels := channels[channel := map[]]; }
      log := log + [MessageAccepted(channel, message)];
      Remember(old(publishedMessages), old(publishedOrder), Announced(old(log)), message);
      assert Connections(channels) == Connections(old(channels));
      AnnouncedAppend(old(log), MessageAccepted(channel, message));
    }

    method Subscribe(c: Connection, allowed: bool) returns (ok: bool)
      requires Valid()
      modifies this
      ensures Valid() && ok == allowed
      ensures ok ==> Open() == old(Open()) + {c} && log == Arrive(old(log), old(Open()), c)
      ensures !ok ==> Open() == old(Open()) && log == old(log)
    {
      hide Announced, Recent, Remembers, Connections, Present;
      if !allowed { return false; }
      var participants := if c.channel in channels then channels[c.channel] else map[];
      var connections := if c.user in participants then participants[c.user] else {};
      var isNew := connections == {};
      Joining(channels, c, participants, connections);
      channels := channels[c.channel := participants[c.user := connections + {c.id}]];
      if isNew {
        log := log + [ParticipantJoined(c.channel, c.user)];
        AnnouncedAppend(old(log), ParticipantJoined(c.channel, c.user));
      }
      return true;
    }

    method Leave(c: Connection)
      requires Valid()
      modifies this
      ensures Valid()
      ensures Open() == old(Open()) - {c}
      ensures log == Depart(old(log), old(Open()), c)
    {
      hide Announced, Recent, Remembers, Connections, Present;
      Leaving(channels, c);
      if c.channel !in channels { return; }
      var participants := channels[c.channel];
      if c.user !in participants { return; }
      var connections := participants[c.user] - {c.id};
      channels := channels[c.channel := participants[c.user := connections]];
      if connections == {} {
        channels := channels[c.channel := participants - {c.user}];
        log := log + [ParticipantLeft(c.channel, c.user)];
        AnnouncedAppend(old(log), ParticipantLeft(c.channel, c.user));
      }
      assert channels == Without(old(channels), c);
    }
  }

  /** Dropping the oldest before adding the newest keeps the last 4096. */
  lemma Remember(messages: set<nat>, order: seq<nat>, announced: seq<nat>, message: nat)
    requires Remembers(messages, order, announced) && message !in order
    ensures var full := |order| == CACHE;
      Remembers(if full then messages + {message} - {order[0]} else messages + {message},
                (if full then order[1..] else order) + [message], announced + [message])
  {
    if |order| == CACHE {
      assert order[1..] + [message] == Recent(announced + [message]);
      assert forall id :: id in order <==> id == order[0] || id in order[1..];
    }
  }

  lemma PresentIsListed(channels: map<string, Participants>, channel: string, user: string)
    requires Occupied(channels)
    ensures Present(Connections(channels), channel, user) <==> channel in channels && user in channels[channel]
  {
    if channel in channels && user in channels[channel] {
      var id :| id in channels[channel][user];
      assert Connection(channel, user, id) in Connections(channels);
    }
  }

  lemma Joining(channels: map<string, Participants>, c: Connection, participants: Participants, connections: set<nat>)
    requires Occupied(channels)
    requires participants == if c.channel in channels then channels[c.channel] else map[]
    requires connections == if c.user in participants then participants[c.user] else {}
    ensures var channels' := channels[c.channel := participants[c.user := connections + {c.id}]];
      Occupied(channels') && Connections(channels') == Connections(channels) + {c}
    ensures Present(Connections(channels), c.channel, c.user) <==> connections != {}
  {
    PresentIsListed(channels, c.channel, c.user);
  }

  /** The channels once the connection is gone, with its user when it was the last one. */
  function Without(channels: map<string, Participants>, c: Connection): map<string, Participants> {
    if c.channel !in channels || c.user !in channels[c.channel] then channels
    else
      var rest := channels[c.channel][c.user] - {c.id};
      channels[c.channel := if rest == {} then channels[c.channel] - {c.user} else channels[c.channel][c.user := rest]]
  }

  lemma Leaving(channels: map<string, Participants>, c: Connection)
    requires Occupied(channels)
    ensures Occupied(Without(channels, c)) && Connections(Without(channels, c)) == Connections(channels) - {c}
    ensures Present(Connections(channels), c.channel, c.user) <==>
      c.channel in channels && c.user in channels[c.channel]
    ensures Present(Connections(channels) - {c}, c.channel, c.user)
       <==> c.channel in Without(channels, c) && c.user in Without(channels, c)[c.channel]
  {
    var after := Without(channels, c);
    WithoutOccupied(channels, c);
    WithoutConnections(channels, c);
    hide Without, Connections, Present, Occupied;
    PresentIsListed(channels, c.channel, c.user);
    PresentIsListed(after, c.channel, c.user);
  }

  lemma WithoutOccupied(channels: map<string, Participants>, c: Connection)
    requires Occupied(channels)
    ensures Occupied(Without(channels, c))
  {
  }

  lemma WithoutConnections(channels: map<string, Participants>, c: Connection)
    ensures Connections(Without(channels, c)) == Connections(channels) - {c}
  {
    var after := Without(channels, c);
    if c.channel in channels && c.user in channels[c.channel] {
      assert forall id :: id in channels[c.channel][c.user] - {c.id} <==>
        id in channels[c.channel][c.user] && id != c.id;
    }
    forall d ensures d in Connections(after) <==> d in Connections(channels) && d != c {
      ListedConnection(channels, d);
      ListedConnection(after, d);
      assert d == c <==> d.channel == c.channel && d.user == c.user && d.id == c.id;
    }
  }

  lemma ListedConnection(channels: map<string, Participants>, d: Connection)
    ensures d in Connections(channels) <==>
      d.channel in channels && d.user in channels[d.channel] && d.id in channels[d.channel][d.user]
  {
  }
}
