/** The session client: a browser-side mirror of one room. It keeps the room code, the host
    flag, the player list and the team list in step with the coordinator's messages, and sends
    requests only while its socket is open. Every transmitted request is recorded in `sent`. */
module Client {
  import opened Basics
  import opened Json
  import opened Protocol

  /** The name a session starts with: the saved name, or "Player" when none (or an empty one)
      was saved. */
  function StartingName(saved: Option<string>): (name: string)
    ensures name != ""
    ensures saved.Some? && saved.value != "" ==> name == saved.value
    ensures !(saved.Some? && saved.value != "") ==> name == "Player"
  {
    if saved.Some? && saved.value != "" then saved.value else "Player"
  }

  /** Which server messages reach the game through a callback: all known ones except
      `host_transferred`, which only flips the host flag. */
  predicate Notifies(msg: ServerMsg)
  {
    !msg.HostTransferred? && !msg.Unrecognised?
  }

  class SessionClient {
    /** The socket exists and its ready state is OPEN. */
    var socketOpen: bool
    var roomCode: Option<string>
    const playerId: string
    var playerName: string
    var isHost: bool
    var players: seq<PlayerInfo>
    var teams: Json
    /** Requests actually handed to the socket, in order. */
    var sent: seq<ClientMsg>

    /** A fresh session: no socket, no room, not host, empty lists. The player id is drawn
        outside and passed in, as is the name read from storage. */
    constructor (playerId: string, savedName: Option<string>)
      ensures this.playerId == playerId && playerName == StartingName(savedName)
      ensures !socketOpen && roomCode.None? && !isHost
      ensures players == [] && teams == JArr([]) && sent == []
    {
      this.playerId := playerId;
      playerName := StartingName(savedName);
      socketOpen := false;
      roomCode := None;
      isHost := false;
      players := [];
      teams := JArr([]);
      sent := [];
    }

    /** The outcome of `connect`: the socket opens when the server is reachable. */
    method Connect(reachable: bool)
      modifies this`socketOpen
      ensures socketOpen == reachable
    {
      socketOpen := reachable;
    }

    /** The socket reports that it closed. */
    method SocketClosed()
      modifies this`socketOpen
      ensures !socketOpen
    {
      socketOpen := false;
    }

    /** `send`: transmits only over an open socket; otherwise the request is silently dropped. */
    method Send(msg: ClientMsg)
      modifies this`sent
      ensures sent == if socketOpen then old(sent) + [msg] else old(sent)
    {
      if socketOpen {
        sent := sent + [msg];
      }
    }

    method CreateRoom(settings: Option<Json>)
      modifies this`sent
      ensures sent == if socketOpen then old(sent) + [ClientMsg.CreateRoom(playerId, playerName, settings)] else old(sent)
    {
      Send(ClientMsg.CreateRoom(playerId, playerName, settings));
    }

    method JoinRoom(code: string)
      modifies this`sent
      ensures sent == if socketOpen then old(sent) + [ClientMsg.JoinRoom(code, playerId, playerName)] else old(sent)
    {
      Send(ClientMsg.JoinRoom(code, playerId, playerName));
    }

    method LeaveRoom()
      modifies this`sent
      ensures sent == if socketOpen then old(sent) + [ClientMsg.LeaveRoom] else old(sent)
    {
      Send(ClientMsg.LeaveRoom);
    }

    method UpdateTeams(teamList: Json, playerTeams: seq<PlayerTeam>)
      modifies this`sent
      ensures sent == if socketOpen then old(sent) + [ClientMsg.UpdateTeams(teamList, playerTeams)] else old(sent)
    {
      Send(ClientMsg.UpdateTeams(teamList, playerTeams));
    }

    method StartGame(gameState: Json)
      modifies this`sent
      ensures sent == if socketOpen then old(sent) + [ClientMsg.StartGame(gameState)] else old(sent)
    {
      Send(ClientMsg.StartGame(gameState));
    }

    method SendGameAction(action: string, data: Json)
      modifies this`sent
      ensures sent == if socketOpen then old(sent) + [GameActionRequest(action, data)] else old(sent)
    {
      Send(GameActionRequest(action, data));
    }

    /** `handleMessage`: updates the mirror for one server message and returns the message when
        a callback is due for it. Nothing is ever sent from here. */
    method HandleMessage(msg: ServerMsg) returns (notify: Option<ServerMsg>)
      modifies this`roomCode, this`isHost, this`players, this`teams
      ensures notify == if Notifies(msg) then Some(msg) else None
      ensures roomCode == match msg
        case RoomCreated(code, _) => Some(code)
        case RoomJoined(code, _, _, _, _) => Some(code)
        case _ => old(roomCode)
      ensures isHost == match msg
        case RoomCreated(_, _) => true
        case RoomJoined(_, host, _, _, _) => host
        case HostTransferred => true
        case _ => old(isHost)
      ensures players == match msg
        case RoomJoined(_, _, list, _, _) => list
        case PlayerJoined(p) => old(players) + [p]
        case PlayerLeft(id) => RemoveById(old(players), id)
        case TeamsUpdated(_, playerTeams) => AssignTeams(old(players), playerTeams)
        case _ => old(players)
      ensures teams == match msg
        case RoomJoined(_, _, _, t, _) => t
        case TeamsUpdated(t, _) => t
        case _ => old(teams)
    {
      match msg {
        case RoomCreated(code, _) =>
          roomCode := Some(code);
          isHost := true;
        case RoomJoined(code, host, list, t, _) =>
          roomCode := Some(code);
          isHost := host;
          players := list;
          teams := t;
        case PlayerJoined(p) =>
          players := players + [p];
        case PlayerLeft(id) =>
          players := RemoveById(players, id);
        case TeamsUpdated(t, playerTeams) =>
          teams := t;
          players := ApplyPlayerTeams(players, playerTeams);
        case HostTransferred =>
          isHost := true;
        case GameStarted(_) =>
        case GameAction(_, _, _) =>
        case Error(_) =>
        case Unrecognised(_) =>
      }
      notify := if Notifies(msg) then Some(msg) else None;
    }
  }
}
