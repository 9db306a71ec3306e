/** The room protocol shared by the coordinator and the session client: player entries, the
    messages in both directions, and the roster operations both sides perform on a player list
    (remove every entry with an id, set the team of the first entry with an id). */
module Protocol {
  import opened Basics
  import opened Json

  /** A room member. `conn` is the connection handle: the coordinator's entries carry one, the
      client's copies carry `()` because the wire form is only `{id, name, team}`. `team` is
      null until the host assigns one. */
  datatype Player<C> = Player(id: string, name: string, team: Json, conn: C)

  type PlayerInfo = Player<()>

  /** One entry of `playerTeams` in `update_teams` / `teams_updated`. */
  datatype PlayerTeam = PlayerTeam(playerId: string, team: Json)

  /** Messages from the coordinator to a client, one per `type`. `Unrecognised` stands for a
      message whose type the client does not know. */
  datatype ServerMsg =
    | RoomCreated(roomCode: string, isHost: bool)
    | RoomJoined(roomCode: string, isHost: bool, players: seq<PlayerInfo>, teams: Json, settings: Json)
    | PlayerJoined(player: PlayerInfo)
    | PlayerLeft(playerId: string)
    | HostTransferred
    | TeamsUpdated(teams: Json, playerTeams: seq<PlayerTeam>)
    | GameStarted(gameState: Json)
    | GameAction(action: string, playerId: string, data: Json)
    | Error(message: string)
    | Unrecognised(kind: string)

  /** Messages from a client to the coordinator. `settings` is absent when the client sent none. */
  datatype ClientMsg =
    | CreateRoom(playerId: string, playerName: string, settings: Option<Json>)
    | JoinRoom(roomCode: string, playerId: string, playerName: string)
    | LeaveRoom
    | UpdateTeams(teams: Json, playerTeams: seq<PlayerTeam>)
    | StartGame(gameState: Json)
    | GameActionRequest(action: string, data: Json)
    | UnrecognisedRequest(kind: string)

  /** The wire form `{id, name, team}` of a member. */
  function Public<C>(p: Player<C>): PlayerInfo
  {
    Player(p.id, p.name, p.team, ())
  }

  /** `players.map(p => ({id, name, team}))`. */
  function Roster<C>(players: seq<Player<C>>): (r: seq<PlayerInfo>)
    ensures |r| == |players|
    ensures forall k :: 0 <= k < |r| ==> r[k] == Public(players[k])
  {
    if players == [] then [] else [Public(players[0])] + Roster(players[1..])
  }

  /** `players.filter(p => p.id !== id)`. */
  function RemoveById<C>(players: seq<Player<C>>, id: string): (r: seq<Player<C>>)
    ensures |r| <= |players|
    ensures forall k :: 0 <= k < |r| ==> r[k] in players && r[k].id != id
    ensures forall k :: 0 <= k < |players| && players[k].id != id ==> players[k] in r
  {
    if players == [] then []
    else (if players[0].id == id then [] else [players[0]]) + RemoveById(players[1..], id)
  }

  /** The filter keeps the survivors in their original order: it works piecewise on a split list. */
  lemma {:induction false} RemoveByIdSplits<C>(a: seq<Player<C>>, b: seq<Player<C>>, id: string)
    ensures RemoveById(a + b, id) == RemoveById(a, id) + RemoveById(b, id)
  {
    if a == [] {
      assert a + b == b;
    } else {
      assert (a + b)[1..] == a[1..] + b;
      RemoveByIdSplits(a[1..], b, id);
      var head := if a[0].id == id then [] else [a[0]];
      calc {
        RemoveById(a + b, id);
        head + RemoveById(a[1..] + b, id);
        head + (RemoveById(a[1..], id) + RemoveById(b, id));
        (head + RemoveById(a[1..], id)) + RemoveById(b, id);
      }
    }
  }

  /** Removing an id nobody has changes nothing. */
  lemma {:induction false} RemoveAbsentId<C>(players: seq<Player<C>>, id: string)
    requires forall k :: 0 <= k < |players| ==> players[k].id != id
    ensures RemoveById(players, id) == players
  {
    if players != [] {
      RemoveAbsentId(players[1..], id);
    }
  }

  /** The index `Array.prototype.find` stops at: the first entry with that id, or `|players|`. */
  function FirstIndexOf<C>(players: seq<Player<C>>, id: string): (k: nat)
    ensures k <= |players|
    ensures k < |players| ==> players[k].id == id
    ensures forall j :: 0 <= j < k ==> players[j].id != id
  {
    if players == [] then 0
    else if players[0].id == id then 0
    else 1 + FirstIndexOf(players[1..], id)
  }

  /** Two lists with the same ids at the same places find the same first index. */
  lemma SameIdsSameFirstIndex<C, D>(a: seq<Player<C>>, b: seq<Player<D>>, id: string)
    requires |a| == |b| && forall k :: 0 <= k < |a| ==> a[k].id == b[k].id
    ensures FirstIndexOf(a, id) == FirstIndexOf(b, id)
  {
  }

  /** `const p = players.find(p => p.id === pt.playerId); if (p) p.team = pt.team;` */
  function AssignTeam<C>(players: seq<Player<C>>, pt: PlayerTeam): (r: seq<Player<C>>)
    ensures |r| == |players|
    ensures forall k :: 0 <= k < |r| ==> r[k] == players[k].(team := r[k].team)
  {
    var k := FirstIndexOf(players, pt.playerId);
    if k < |players| then players[k := players[k].(team := pt.team)] else players
  }

  /** `playerTeams.forEach(...)` of the assignment above, in list order. */
  function AssignTeams<C>(players: seq<Player<C>>, playerTeams: seq<PlayerTeam>): (r: seq<Player<C>>)
    ensures |r| == |players|
    ensures forall k :: 0 <= k < |r| ==> r[k] == players[k].(team := r[k].team)
  {
    if playerTeams == [] then players
    else AssignTeam(AssignTeams(players, playerTeams[..|playerTeams| - 1]), playerTeams[|playerTeams| - 1])
  }

  /** The team the last entry for `id` assigns, if any entry names `id`. */
  function LastTeamFor(playerTeams: seq<PlayerTeam>, id: string): (r: Option<Json>)
    ensures r.None? <==> forall k :: 0 <= k < |playerTeams| ==> playerTeams[k].playerId != id
    ensures r.Some? ==>
      exists k :: 0 <= k < |playerTeams| && playerTeams[k] == PlayerTeam(id, r.value)
                  && forall j :: k < j < |playerTeams| ==> playerTeams[j].playerId != id
  {
    if playerTeams == [] then None
    else if playerTeams[|playerTeams| - 1].playerId == id then Some(playerTeams[|playerTeams| - 1].team)
    else LastTeamFor(playerTeams[..|playerTeams| - 1], id)
  }

  /** What the assignment loop leaves in each entry: the first entry carrying a listed id gets the
      team of the last assignment naming that id; every other entry (unlisted ids, and later
      duplicates of an id) keeps its team. Ids, names and connections never change. */
  lemma {:induction false} AssignTeamsResult<C>(players: seq<Player<C>>, playerTeams: seq<PlayerTeam>, k: nat)
    requires k < |players|
    ensures AssignTeams(players, playerTeams)[k].team ==
      (var id := players[k].id;
       if FirstIndexOf(players, id) == k && LastTeamFor(playerTeams, id).Some?
       then LastTeamFor(playerTeams, id).value
       else players[k].team)
  {
    if playerTeams != [] {
      var init := playerTeams[..|playerTeams| - 1];
      var pt := playerTeams[|playerTeams| - 1];
      var mid := AssignTeams(players, init);
      AssignTeamsResult(players, init, k);
      SameIdsSameFirstIndex(mid, players, pt.playerId);
      SameIdsSameFirstIndex(mid, players, players[k].id);
    }
  }

  /** The forEach loop itself, shared by the coordinator and the client. */
  method ApplyPlayerTeams<C>(players: seq<Player<C>>, playerTeams: seq<PlayerTeam>) returns (r: seq<Player<C>>)
    ensures r == AssignTeams(players, playerTeams)
  {
    r := players;
    var i := 0;
    while i < |playerTeams|
      invariant 0 <= i <= |playerTeams|
      invariant r == AssignTeams(players, playerTeams[..i])
    {
      assert playerTeams[..i + 1][..i] == playerTeams[..i];
      r := AssignTeam(r, playerTeams[i]);
      i := i + 1;
    }
    assert playerTeams[..i] == playerTeams;
  }

  /** The client's copy follows the coordinator's list: the wire form of the list after an
      operation is the operation applied to the wire form. */
  lemma {:induction false} RosterAppend<C>(players: seq<Player<C>>, p: Player<C>)
    ensures Roster(players + [p]) == Roster(players) + [Public(p)]
  {
  }

  lemma {:induction false} RosterRemove<C>(players: seq<Player<C>>, id: string)
    ensures Roster(RemoveById(players, id)) == RemoveById(Roster(players), id)
  {
    if players != [] {
      RosterRemove(players[1..], id);
      var head := if players[0].id == id then [] else [players[0]];
      assert RemoveById(players, id) == head + RemoveById(players[1..], id);
      RosterSplits(head, RemoveById(players[1..], id));
      assert Roster(players)[1..] == Roster(players[1..]);
    }
  }

  lemma {:induction false} RosterSplits<C>(a: seq<Player<C>>, b: seq<Player<C>>)
    ensures Roster(a + b) == Roster(a) + Roster(b)
  {
  }

  lemma {:induction false} RosterAssign<C>(players: seq<Player<C>>, playerTeams: seq<PlayerTeam>)
    ensures Roster(AssignTeams(players, playerTeams)) == AssignTeams(Roster(players), playerTeams)
  {
    var a, b := Roster(AssignTeams(players, playerTeams)), AssignTeams(Roster(players), playerTeams);
    forall k | 0 <= k < |players|
      ensures a[k] == b[k]
    {
      AssignTeamsResult(players, playerTeams, k);
      AssignTeamsResult(Roster(players), playerTeams, k);
      SameIdsSameFirstIndex(players, Roster(players), players[k].id);
    }
  }
}
