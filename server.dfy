/** The room coordinator: a map from room code to room, updated by one handler per client
    request, and the fan-out of messages to the members of a room. Connections are opaque ids;
    each carries its open flag and the room code and player id the coordinator tagged it with
    when it created or joined a room. Every `send` the coordinator makes is recorded, in order, in
    an outbox of (recipient, message) pairs. */
module Server {
  import opened Basics
  import opened Json
  import opened Protocol

  type ConnId = nat

  /** Room code and player id written onto a connection by create or join; never cleared. */
  datatype Tag = Tag(roomCode: string, playerId: string)

  datatype Connection = Connection(open: bool, joined: Option<Tag>)

  datatype Room = Room(
    code: string,
    host: ConnId,
    players: seq<Player<ConnId>>,
    teams: Json,
    gameState: Json,
    settings: Json)

  datatype Envelope = Envelope(to: ConnId, msg: ServerMsg)

  /** A join is refused once a room holds this many players. */
  const MaxPlayers := 10

  /** The settings a room is created with when the request carries none (or a falsy value). */
  const DefaultSettings := JObj([("teamCount", JNum(2)), ("cardsPerTeam", JNum(10))])

  /** `data.settings || { teamCount: 2, cardsPerTeam: 10 }`. */
  function RoomSettings(given: Option<Json>): (r: Json)
    ensures given.Some? && Truthy(given.value) ==> r == given.value
    ensures !(given.Some? && Truthy(given.value)) ==> r == DefaultSettings
    ensures Truthy(r)
  {
    if given.Some? && Truthy(given.value) then given.value else DefaultSettings
  }

  /** The broadcast test for one member: not the excluded connection, and its socket is open. */
  predicate Reaches(c: ConnId, connections: map<ConnId, Connection>, exclude: Option<ConnId>)
  {
    exclude != Some(c) && c in connections && connections[c].open
  }

  /** The sends of one broadcast: one per member entry that passes the test, in list order. */
  function Fanout(players: seq<Player<ConnId>>, connections: map<ConnId, Connection>,
                  exclude: Option<ConnId>, msg: ServerMsg): (r: seq<Envelope>)
    ensures |r| <= |players|
    ensures forall k :: 0 <= k < |r| ==> r[k].msg == msg && Reaches(r[k].to, connections, exclude)
  {
    if players == [] then []
    else
      var head := if Reaches(players[0].conn, connections, exclude) then [Envelope(players[0].conn, msg)] else [];
      head + Fanout(players[1..], connections, exclude, msg)
  }

  lemma {:induction false} FanoutSplits(a: seq<Player<ConnId>>, b: seq<Player<ConnId>>,
                                        connections: map<ConnId, Connection>, exclude: Option<ConnId>, msg: ServerMsg)
    ensures Fanout(a + b, connections, exclude, msg) == Fanout(a, connections, exclude, msg) + Fanout(b, connections, exclude, msg)
  {
    if a == [] {
      assert a + b == b;
    } else {
      assert (a + b)[1..] == a[1..] + b;
      FanoutSplits(a[1..], b, connections, exclude, msg);
    }
  }

  /** Who a broadcast reaches: exactly the members whose connection is open and not excluded. */
  lemma {:induction false} FanoutRecipients(players: seq<Player<ConnId>>, connections: map<ConnId, Connection>,
                                            exclude: Option<ConnId>, msg: ServerMsg, c: ConnId)
    ensures Envelope(c, msg) in Fanout(players, connections, exclude, msg) <==>
      Reaches(c, connections, exclude) && exists k :: 0 <= k < |players| && players[k].conn == c
  {
    if players != [] {
      FanoutRecipients(players[1..], connections, exclude, msg, c);
      if Reaches(c, connections, exclude) && players[0].conn != c {
        assert forall k :: 1 <= k < |players| && players[k].conn == c ==> players[1..][k - 1].conn == c;
      }
    }
  }

  /** One more member adds at most its own envelope at the end. */
  lemma FanoutSnoc(players: seq<Player<ConnId>>, i: nat, connections: map<ConnId, Connection>,
                   exclude: Option<ConnId>, msg: ServerMsg)
    requires i < |players|
    ensures Fanout(players[..i + 1], connections, exclude, msg) == Fanout(players[..i], connections, exclude, msg)
      + (if Reaches(players[i].conn, connections, exclude) then [Envelope(players[i].conn, msg)] else [])
  {
    assert players[..i + 1] == players[..i] + [players[i]];
    FanoutSplits(players[..i], [players[i]], connections, exclude, msg);
  }

  /** A broadcast sends nothing else: every envelope carries the broadcast message. */
  lemma FanoutOnlyMsg(players: seq<Player<ConnId>>, connections: map<ConnId, Connection>,
                      exclude: Option<ConnId>, msg: ServerMsg, e: Envelope)
    requires e in Fanout(players, connections, exclude, msg)
    ensures e.msg == msg && Reaches(e.to, connections, exclude)
  {
  }

  predicate RoomOk(code: string, room: Room, connections: map<ConnId, Connection>)
  {
    && room.code == code
    && 1 <= |room.players| <= MaxPlayers
    && room.host in connections
    && forall k :: 0 <= k < |room.players| ==> room.players[k].conn in connections
  }

  /** What a handler does to the room map, and what it sends, in order. */
  datatype Effect = Effect(rooms: map<string, Room>, sent: seq<Envelope>)

  /** The effect of `handleJoinRoom` for a connection `ws`. */
  function JoinEffect(rooms: map<string, Room>, connections: map<ConnId, Connection>, ws: ConnId,
                      roomCode: string, playerId: string, playerName: string): Effect
  {
    if roomCode !in rooms then Effect(rooms, [Envelope(ws, Error("Room not found"))])
    else if |rooms[roomCode].players| >= MaxPlayers then Effect(rooms, [Envelope(ws, Error("Room is full"))])
    else
      var room := rooms[roomCode];
      var joiner := Player(playerId, playerName, JNull, ws);
      var players := room.players + [joiner];
      Effect(rooms[roomCode := room.(players := players)],
             [Envelope(ws, RoomJoined(roomCode, false, Roster(players), room.teams, room.settings))]
             + Fanout(players, connections, Some(ws), PlayerJoined(Public(joiner))))
  }

  /** The effect of `handleLeaveRoom` for a connection tagged `tag`. */
  function LeaveEffect(rooms: map<string, Room>, connections: map<ConnId, Connection>, ws: ConnId,
                       tag: Option<Tag>): Effect
  {
    if tag.None? || tag.value.roomCode !in rooms then Effect(rooms, [])
    else
      var code := tag.value.roomCode;
      var room := rooms[code];
      var remaining := RemoveById(room.players, tag.value.playerId);
      if remaining == [] then Effect(rooms - {code}, [])
      else if room.host == ws then
        Effect(rooms[code := room.(players := remaining, host := remaining[0].conn)],
               [Envelope(remaining[0].conn, HostTransferred)]
               + Fanout(remaining, connections, None, PlayerLeft(tag.value.playerId)))
      else
        Effect(rooms[code := room.(players := remaining)],
               Fanout(remaining, connections, None, PlayerLeft(tag.value.playerId)))
  }

  /** Leaving keeps every stored room well formed: the emptied room is dropped, a survivor
      takes over as host, and survivors only use connections already known. */
  lemma LeaveKeepsRoomsOk(rooms: map<string, Room>, connections: map<ConnId, Connection>, ws: ConnId, tag: Option<Tag>)
    requires forall code :: code in rooms ==> RoomOk(code, rooms[code], connections)
    ensures var after := LeaveEffect(rooms, connections, ws, tag).rooms;
      forall code :: code in after ==> RoomOk(code, after[code], connections)
  {
    if tag.Some? && tag.value.roomCode in rooms {
      var room := rooms[tag.value.roomCode];
      var remaining := RemoveById(room.players, tag.value.playerId);
      forall k | 0 <= k < |remaining|
        ensures remaining[k].conn in connections
      {
        var j :| 0 <= j < |room.players| && room.players[j] == remaining[k];
      }
    }
  }

  /** A refused join touches no room and answers the joiner alone, with the reason. */
  lemma JoinRefused(rooms: map<string, Room>, connections: map<ConnId, Connection>, ws: ConnId,
                    roomCode: string, playerId: string, playerName: string)
    requires roomCode !in rooms || |rooms[roomCode].players| >= MaxPlayers
    ensures var e := JoinEffect(rooms, connections, ws, roomCode, playerId, playerName);
      && e.rooms == rooms
      && e.sent == [Envelope(ws, Error(if roomCode in rooms then "Room is full" else "Room not found"))]
  {
  }

  /** An accepted join appends exactly the joiner, with no team, at the end of that room's list
      and changes no other room; the joiner's reply comes first and lists everyone including
      the joiner; then every open member other than the joiner, and no one else, hears of it. */
  lemma {:induction false} JoinAccepted(rooms: map<string, Room>, connections: map<ConnId, Connection>, ws: ConnId,
                                        roomCode: string, playerId: string, playerName: string)
    requires roomCode in rooms && |rooms[roomCode].players| < MaxPlayers
    ensures var e := JoinEffect(rooms, connections, ws, roomCode, playerId, playerName);
      var joiner := Player(playerId, playerName, JNull, ws);
      && e.rooms.Keys == rooms.Keys
      && (forall code :: code in rooms && code != roomCode ==> e.rooms[code] == rooms[code])
      && e.rooms[roomCode] == rooms[roomCode].(players := rooms[roomCode].players + [joiner])
      && |e.rooms[roomCode].players| <= MaxPlayers
      && e.sent[0].to == ws
      && e.sent[0].msg.RoomJoined? && !e.sent[0].msg.isHost
      && e.sent[0].msg.players == Roster(rooms[roomCode].players) + [Public(joiner)]
      && (forall c :: Envelope(c, PlayerJoined(Public(joiner))) in e.sent[1..] <==>
            c != ws && c in connections && connections[c].open
            && exists k :: 0 <= k < |rooms[roomCode].players| && rooms[roomCode].players[k].conn == c)
      && (forall k :: 1 <= k < |e.sent| ==> e.sent[k].to != ws && e.sent[k].msg == PlayerJoined(Public(joiner)))
  {
    var e := JoinEffect(rooms, connections, ws, roomCode, playerId, playerName);
    var joiner := Player(playerId, playerName, JNull, ws);
    var players := rooms[roomCode].players + [joiner];
    var msg := PlayerJoined(Public(joiner));
    RosterAppend(rooms[roomCode].players, joiner);
    assert e.sent[1..] == Fanout(players, connections, Some(ws), msg);
    forall c
      ensures Envelope(c, msg) in e.sent[1..] <==>
        c != ws && c in connections && connections[c].open
        && exists k :: 0 <= k < |rooms[roomCode].players| && rooms[roomCode].players[k].conn == c
    {
      FanoutRecipients(players, connections, Some(ws), msg, c);
      if c != ws && exists k :: 0 <= k < |players| && players[k].conn == c {
        var k :| 0 <= k < |players| && players[k].conn == c;
        assert k < |rooms[roomCode].players|;
      }
      if exists k :: 0 <= k < |rooms[roomCode].players| && rooms[roomCode].players[k].conn == c {
        var k :| 0 <= k < |rooms[roomCode].players| && rooms[roomCode].players[k].conn == c;
        assert players[k].conn == c;
      }
    }
  }

  /** After a leave no entry with the leaver's id is left; the room disappears exactly when no
      entry is left, the other entries stay in their order, and no other room changes. */
  lemma LeaveRemoves(rooms: map<string, Room>, connections: map<ConnId, Connection>, ws: ConnId, tag: Tag)
    requires tag.roomCode in rooms
    ensures var e := LeaveEffect(rooms, connections, ws, Some(tag));
      var remaining := RemoveById(rooms[tag.roomCode].players, tag.playerId);
      && (tag.roomCode in e.rooms <==> remaining != [])
      && (tag.roomCode !in e.rooms ==> e.sent == [])
      && (tag.roomCode in e.rooms ==>
            e.rooms[tag.roomCode].players == remaining
            && forall k :: 0 <= k < |remaining| ==> remaining[k].id != tag.playerId)
      && (forall code :: code != tag.roomCode ==> (code in e.rooms <==> code in rooms))
      && (forall code :: code in rooms && code != tag.roomCode ==> e.rooms[code] == rooms[code])
  {
  }

  /** Host failover: when the host's connection leaves a room that survives, the first remaining
      entry's connection becomes host and is the one connection told so; any other leave keeps
      the host and sends no transfer. Every remaining open member hears who left. */
  lemma {:induction false} LeaveHandsOver(rooms: map<string, Room>, connections: map<ConnId, Connection>,
                                          ws: ConnId, tag: Tag)
    requires tag.roomCode in rooms
    requires RemoveById(rooms[tag.roomCode].players, tag.playerId) != []
    ensures var e := LeaveEffect(rooms, connections, ws, Some(tag));
      var room := rooms[tag.roomCode];
      var after := e.rooms[tag.roomCode];
      && (room.host == ws ==>
            after.host == after.players[0].conn
            && e.sent[0] == Envelope(after.host, HostTransferred)
            && forall k :: 1 <= k < |e.sent| ==> e.sent[k].msg == PlayerLeft(tag.playerId))
      && (room.host != ws ==>
            after.host == room.host
            && forall k :: 0 <= k < |e.sent| ==> e.sent[k].msg == PlayerLeft(tag.playerId))
      && (forall c :: Envelope(c, PlayerLeft(tag.playerId)) in e.sent <==>
            c in connections && connections[c].open
            && exists k :: 0 <= k < |after.players| && after.players[k].conn == c)
  {
    var e := LeaveEffect(rooms, connections, ws, Some(tag));
    var room := rooms[tag.roomCode];
    var remaining := RemoveById(room.players, tag.playerId);
    var msg := PlayerLeft(tag.playerId);
    var fan := Fanout(remaining, connections, None, msg);
    forall c
      ensures Envelope(c, msg) in e.sent <==>
        c in connections && connections[c].open && exists k :: 0 <= k < |remaining| && remaining[k].conn == c
    {
      FanoutRecipients(remaining, connections, None, msg, c);
      if room.host == ws {
        assert e.sent == [Envelope(remaining[0].conn, HostTransferred)] + fan;
        assert Envelope(c, msg) in e.sent <==> Envelope(c, msg) in fan;
      }
    }
  }

  /** A second leave with the same tag (the close that follows an explicit leave) removes
      nobody, yet still tells the remaining open members that the player left. */
  lemma LeaveAgainRemovesNobody(rooms: map<string, Room>, connections: map<ConnId, Connection>, ws: ConnId, tag: Tag)
    requires tag.roomCode in rooms
    requires tag.roomCode in LeaveEffect(rooms, connections, ws, Some(tag)).rooms
    ensures var once := LeaveEffect(rooms, connections, ws, Some(tag));
      var twice := LeaveEffect(once.rooms, connections, ws, Some(tag));
      var players := once.rooms[tag.roomCode].players;
      && tag.roomCode in twice.rooms
      && twice.rooms[tag.roomCode].players == players
      && exists pre :: twice.sent == pre + Fanout(players, connections, None, PlayerLeft(tag.playerId))
  {
    var once := LeaveEffect(rooms, connections, ws, Some(tag));
    var players := once.rooms[tag.roomCode].players;
    RemoveAbsentId(players, tag.playerId);
    var twice := LeaveEffect(once.rooms, connections, ws, Some(tag));
    var fan := Fanout(players, connections, None, PlayerLeft(tag.playerId));
    if once.rooms[tag.roomCode].host == ws {
      assert twice.sent == [Envelope(players[0].conn, HostTransferred)] + fan;
    } else {
      assert twice.sent == [] + fan;
    }
  }

  /** Entries leave by player id, not by connection. When another connection that joined with
      the host's player id leaves, the host's own entry goes with it, yet the room still names
      the host's connection as its host. */
  lemma SharedIdLeaveDropsHost(rooms: map<string, Room>, connections: map<ConnId, Connection>, ws: ConnId,
                               tag: Tag, k: nat, j: nat)
    requires tag.roomCode in rooms
    requires var room := rooms[tag.roomCode];
      && room.host != ws
      && k < |room.players| && room.players[k].conn == room.host && room.players[k].id == tag.playerId
      && j < |room.players| && room.players[j].id != tag.playerId
    ensures var room := rooms[tag.roomCode];
      var after := LeaveEffect(rooms, connections, ws, Some(tag)).rooms;
      && tag.roomCode in after
      && after[tag.roomCode].host == room.host
      && room.players[k] !in after[tag.roomCode].players
      && forall i :: 0 <= i < |after[tag.roomCode].players| ==> after[tag.roomCode].players[i].id != tag.playerId
  {
    var room := rooms[tag.roomCode];
    var remaining := RemoveById(room.players, tag.playerId);
    assert room.players[j] in remaining;
  }

  /** The loop of `broadcastToRoom`: one envelope per member, in member order, for each member
      whose connection is open and not the excluded one. */
  method FanoutLoop(players: seq<Player<ConnId>>, connections: map<ConnId, Connection>, exclude: Option<ConnId>, msg: ServerMsg)
    returns (sent: seq<Envelope>)
    ensures sent == Fanout(players, connections, exclude, msg)
  {
    sent := [];
    var i := 0;
    while i < |players|
      invariant 0 <= i <= |players|
      invariant sent == Fanout(players[..i], connections, exclude, msg)
    {
      FanoutSnoc(players, i, connections, exclude, msg);
      if Reaches(players[i].conn, connections, exclude) {
        sent := sent + [Envelope(players[i].conn, msg)];
      }
      i := i + 1;
    }
    assert players[..i] == players;
  }

  class RoomServer {
    var rooms: map<string, Room>
    var connections: map<ConnId, Connection>
    var nextConn: ConnId
    var outbox: seq<Envelope>

    /** Every stored room is filed under its own code, is never empty, never holds more than
        `MaxPlayers`, and only refers to connections the coordinator has seen. */
    predicate Valid()
      reads this
    {
      && (forall code :: code in rooms ==> RoomOk(code, rooms[code], connections))
      && (forall c :: c in connections ==> c < nextConn)
    }

    constructor ()
      ensures Valid()
      ensures rooms == map[] && connections == map[] && outbox == []
    {
      rooms := map[];
      connections := map[];
      nextConn := 0;
      outbox := [];
    }

    /** A new socket: open, not yet in any room. */
    method Connect() returns (ws: ConnId)
      requires Valid()
      modifies this
      ensures Valid()
      ensures ws !in old(connections)
      ensures connections == old(connections)[ws := Connection(true, None)]
      ensures rooms == old(rooms) && outbox == old(outbox)
    {
      ws := nextConn;
      connections := connections[ws := Connection(true, None)];
      nextConn := nextConn + 1;
    }

    /** `broadcastToRoom`: sends to every member of the room except `exclude` whose socket is
        open; nothing when no room has the code. */
    method BroadcastToRoom(roomCode: string, msg: ServerMsg, exclude: Option<ConnId>)
      modifies this`outbox
      ensures outbox == old(outbox) +
        (if roomCode in rooms then Fanout(rooms[roomCode].players, connections, exclude, msg) else [])
    {
      if roomCode !in rooms {
        assert outbox + [] == outbox;
        return;
      }
      var sent := FanoutLoop(rooms[roomCode].players, connections, exclude, msg);
      outbox := outbox + sent;
    }

    /** `handleCreateRoom`: files a new room under `roomCode` (replacing any room already filed
        there) whose only player and host is the creator, tags the connection and confirms. */
    method HandleCreateRoom(ws: ConnId, playerId: string, playerName: string, settings: Option<Json>, roomCode: string)
      requires Valid() && ws in connections
      modifies this
      ensures Valid()
      ensures rooms == old(rooms)[roomCode :=
        Room(roomCode, ws, [Player(playerId, playerName, JNull, ws)], JArr([]), JNull, RoomSettings(settings))]
      ensures connections == old(connections)[ws := old(connections)[ws].(joined := Some(Tag(roomCode, playerId)))]
      ensures outbox == old(outbox) + [Envelope(ws, RoomCreated(roomCode, true))]
    {
      var room := Room(roomCode, ws, [Player(playerId, playerName, JNull, ws)], JArr([]), JNull, RoomSettings(settings));
      rooms := rooms[roomCode := room];
      connections := connections[ws := connections[ws].(joined := Some(Tag(roomCode, playerId)))];
      outbox := outbox + [Envelope(ws, RoomCreated(roomCode, true))];
    }

    /** `handleJoinRoom`: refuses an unknown code or a full room with an error to the joiner
        alone; otherwise appends the joiner (no team yet), tags the connection, sends the joiner
        the whole room and tells every other open member about the newcomer. */
    method HandleJoinRoom(ws: ConnId, roomCode: string, playerId: string, playerName: string)
      requires Valid() && ws in connections
      modifies this
      ensures Valid()
      ensures var e := JoinEffect(old(rooms), connections, ws, roomCode, playerId, playerName);
        rooms == e.rooms && outbox == old(outbox) + e.sent
      ensures connections == (if roomCode in old(rooms) && |old(rooms)[roomCode].players| < MaxPlayers
        then old(connections)[ws := old(connections)[ws].(joined := Some(Tag(roomCode, playerId)))]
        else old(connections))
    {
      if roomCode !in rooms {
        outbox := outbox + [Envelope(ws, Error("Room not found"))];
        return;
      }
      var room := rooms[roomCode];
      if |room.players| >= MaxPlayers {
        outbox := outbox + [Envelope(ws, Error("Room is full"))];
        return;
      }
      var joiner := Player(playerId, playerName, JNull, ws);
      room := room.(players := room.players + [joiner]);
      rooms := rooms[roomCode := room];
      connections := connections[ws := connections[ws].(joined := Some(Tag(roomCode, playerId)))];
      outbox := outbox + [Envelope(ws, RoomJoined(roomCode, false, Roster(room.players), room.teams, room.settings))];
      BroadcastToRoom(roomCode, PlayerJoined(Public(joiner)), Some(ws));
    }

    /** `handleLeaveRoom`: drops every entry with the connection's player id from the room the
        connection is tagged with. An emptied room is deleted; otherwise a departing host hands
        over to the first remaining entry, which alone is told so, and all remaining open members
        learn who left. An untagged connection or a vanished room changes nothing. */
    method HandleLeaveRoom(ws: ConnId)
      requires Valid() && ws in connections
      modifies this`rooms, this`outbox
      ensures Valid()
      ensures connections == old(connections)
      ensures var e := LeaveEffect(old(rooms), connections, ws, connections[ws].joined);
        rooms == e.rooms && outbox == old(outbox) + e.sent
    {
      var tag := connections[ws].joined;
      LeaveKeepsRoomsOk(rooms, connections, ws, tag);
      if tag.None? || tag.value.roomCode !in rooms {
        return;
      }
      var code := tag.value.roomCode;
      var room := rooms[code];
      var remaining := RemoveById(room.players, tag.value.playerId);
      if remaining == [] {
        rooms := rooms - {code};
      } else {
        if room.host == ws {
          room := room.(players := remaining, host := remaining[0].conn);
          rooms := rooms[code := room];
          outbox := outbox + [Envelope(room.host, HostTransferred)];
        } else {
          room := room.(players := remaining);
          rooms := rooms[code := room];
        }
        BroadcastToRoom(code, PlayerLeft(tag.value.playerId), None);
      }
    }

    /** `handleDisconnect`: the socket is closed; a connection tagged with a non-empty room code
        then leaves that room. */
    method HandleDisconnect(ws: ConnId)
      requires Valid() && ws in connections
      modifies this
      ensures Valid()
      ensures connections == old(connections)[ws := old(connections)[ws].(open := false)]
      ensures var tag := old(connections)[ws].joined;
        var e := if tag.Some? && tag.value.roomCode != "" then LeaveEffect(old(rooms), connections, ws, tag)
                 else Effect(old(rooms), []);
        rooms == e.rooms && outbox == old(outbox) + e.sent
    {
      connections := connections[ws := connections[ws].(open := false)];
      var tag := connections[ws].joined;
      if tag.Some? && tag.value.roomCode != "" {
        HandleLeaveRoom(ws);
      }
    }

    /** `handleGameAction`: relays the action, stamped with the sender's player id, to every
        other open member of the sender's room. Rooms are untouched. */
    method HandleGameAction(ws: ConnId, action: string, data: Json)
      requires Valid() && ws in connections
      modifies this`outbox
      ensures Valid()
      ensures var tag := connections[ws].joined;
        outbox == old(outbox) +
          (if tag.Some? && tag.value.roomCode in rooms
           then Fanout(rooms[tag.value.roomCode].players, connections, Some(ws), GameAction(action, tag.value.playerId, data))
           else [])
    {
      var tag := connections[ws].joined;
      if tag.Some? {
        BroadcastToRoom(tag.value.roomCode, GameAction(action, tag.value.playerId, data), Some(ws));
      }
    }

    /** The guard of the host-only requests: the connection's room exists and it is the host. */
    predicate IsHostOfRoom(ws: ConnId)
      reads this
    {
      ws in connections && connections[ws].joined.Some?
      && connections[ws].joined.value.roomCode in rooms
      && rooms[connections[ws].joined.value.roomCode].host == ws
    }

    /** `handleUpdateTeams`: from the host, replaces the room's teams, sets the team of the
        first entry of each listed id (later listings win) and tells every open member, sender
        included. From anyone else, nothing happens. */
    method HandleUpdateTeams(ws: ConnId, teams: Json, playerTeams: seq<PlayerTeam>)
      requires Valid() && ws in connections
      modifies this`rooms, this`outbox
      ensures Valid()
      ensures !old(IsHostOfRoom(ws)) ==> rooms == old(rooms) && outbox == old(outbox)
      ensures old(IsHostOfRoom(ws)) ==>
        var code := connections[ws].joined.value.roomCode;
        var room := old(rooms)[code].(teams := teams, players := AssignTeams(old(rooms)[code].players, playerTeams));
        && rooms == old(rooms)[code := room]
        && outbox == old(outbox) + Fanout(room.players, connections, None, TeamsUpdated(teams, playerTeams))
    {
      if !IsHostOfRoom(ws) {
        return;
      }
      var code := connections[ws].joined.value.roomCode;
      var room := rooms[code];
      var players := ApplyPlayerTeams(room.players, playerTeams);
      room := room.(teams := teams, players := players);
      rooms := rooms[code := room];
      BroadcastToRoom(code, TeamsUpdated(teams, playerTeams), None);
    }

    /** `handleStartGame`: from the host, stores the game state and hands it to every open
        member, sender included. From anyone else, nothing happens. */
    method HandleStartGame(ws: ConnId, gameState: Json)
      requires Valid() && ws in connections
      modifies this`rooms, this`outbox
      ensures Valid()
      ensures !old(IsHostOfRoom(ws)) ==> rooms == old(rooms) && outbox == old(outbox)
      ensures old(IsHostOfRoom(ws)) ==>
        var code := connections[ws].joined.value.roomCode;
        && rooms == old(rooms)[code := old(rooms)[code].(gameState := gameState)]
        && outbox == old(outbox) + Fanout(rooms[code].players, connections, None, GameStarted(gameState))
    {
      if !IsHostOfRoom(ws) {
        return;
      }
      var code := connections[ws].joined.value.roomCode;
      rooms := rooms[code := rooms[code].(gameState := gameState)];
      BroadcastToRoom(code, GameStarted(gameState), None);
    }

    /** The message switch: one handler per request type; an unknown type is ignored. A new
        room's code is drawn outside and passed in. */
    method HandleMessage(ws: ConnId, msg: ClientMsg, freshCode: string)
      requires Valid() && ws in connections
      modifies this
      ensures Valid()
      ensures msg.UnrecognisedRequest? ==>
        rooms == old(rooms) && connections == old(connections) && outbox == old(outbox)
      ensures !msg.CreateRoom? && !msg.JoinRoom? ==> connections == old(connections)
      ensures msg.CreateRoom? ==>
        && rooms == old(rooms)[freshCode := Room(freshCode, ws, [Player(msg.playerId, msg.playerName, JNull, ws)],
                                                 JArr([]), JNull, RoomSettings(msg.settings))]
        && connections == old(connections)[ws := old(connections)[ws].(joined := Some(Tag(freshCode, msg.playerId)))]
        && outbox == old(outbox) + [Envelope(ws, RoomCreated(freshCode, true))]
      ensures msg.JoinRoom? ==>
        var e := JoinEffect(old(rooms), connections, ws, msg.roomCode, msg.playerId, msg.playerName);
        && rooms == e.rooms && outbox == old(outbox) + e.sent
        && connections == (if msg.roomCode in old(rooms) && |old(rooms)[msg.roomCode].players| < MaxPlayers
             then old(connections)[ws := old(connections)[ws].(joined := Some(Tag(msg.roomCode, msg.playerId)))]
             else old(connections))
      ensures msg.LeaveRoom? ==>
        var e := LeaveEffect(old(rooms), connections, ws, connections[ws].joined);
        rooms == e.rooms && outbox == old(outbox) + e.sent
      ensures msg.GameActionRequest? ==>
        var tag := connections[ws].joined;
        && rooms == old(rooms)
        && outbox == old(outbox) +
             (if tag.Some? && tag.value.roomCode in rooms
              then Fanout(rooms[tag.value.roomCode].players, connections, Some(ws),
                          GameAction(msg.action, tag.value.playerId, msg.data))
              else [])
      ensures (msg.UpdateTeams? || msg.StartGame?) && !old(IsHostOfRoom(ws)) ==>
        rooms == old(rooms) && outbox == old(outbox)
      ensures msg.UpdateTeams? && old(IsHostOfRoom(ws)) ==>
        var code := connections[ws].joined.value.roomCode;
        var room := old(rooms)[code].(teams := msg.teams, players := AssignTeams(old(rooms)[code].players, msg.playerTeams));
        && rooms == old(rooms)[code := room]
        && outbox == old(outbox) + Fanout(room.players, connections, None, TeamsUpdated(msg.teams, msg.playerTeams))
      ensures msg.StartGame? && old(IsHostOfRoom(ws)) ==>
        var code := connections[ws].joined.value.roomCode;
        && rooms == old(rooms)[code := old(rooms)[code].(gameState := msg.gameState)]
        && outbox == old(outbox) + Fanout(rooms[code].players, connections, None, GameStarted(msg.gameState))
    {
      match msg
      case CreateRoom(playerId, playerName, settings) =>
        HandleCreateRoom(ws, playerId, playerName, settings, freshCode);
      case JoinRoom(roomCode, playerId, playerName) =>
        HandleJoinRoom(ws, roomCode, playerId, playerName);
      case LeaveRoom =>
        HandleLeaveRoom(ws);
      case GameActionRequest(action, data) =>
        HandleGameAction(ws, action, data);
      case UpdateTeams(teams, playerTeams) =>
        HandleUpdateTeams(ws, teams, playerTeams);
      case StartGame(gameState) =>
        HandleStartGame(ws, gameState);
      case UnrecognisedRequest(_) =>
    }
  }
}
