/** The team game played over the room protocol. The host builds the song list and a shuffled
    deck of indices into it and hands them, with the teams, to the room; every member then holds
    its own copy of the deck, the timeline, the card in hand, the teams and whose turn it is,
    and keeps them in step by relaying placements, reveals and turn changes. */
module TeamGame {
  import opened Basics
  import opened Text
  import opened Json
  import opened Cards
  import opened Protocol
  import opened Payloads
  import opened Client
  import Solo

  /** The six team colours, used in turn. */
  const Palette: seq<string> := ["#ef4444", "#3b82f6", "#10b981", "#f59e0b", "#8b5cf6", "#ec4899"]

  /** `getTeamColor`: the palette entry at `index` modulo the palette size. */
  function TeamColor(index: nat): (color: string)
    ensures color in Palette
    ensures index < |Palette| ==> color == Palette[index]
  {
    Palette[index % |Palette|]
  }

  /** Colours repeat every six teams and the first six teams all differ. */
  lemma TeamColorCycle(i: nat, j: nat)
    ensures TeamColor(i + |Palette|) == TeamColor(i)
    ensures i < j < |Palette| ==> TeamColor(i) != TeamColor(j)
  {
  }

  function TeamName(index: nat): string
  {
    "Team " + NatToString(index + 1)
  }

  /** Different teams get different names. */
  lemma TeamNamesDistinct(i: nat, j: nat)
    requires i != j
    ensures TeamName(i) != TeamName(j)
  {
    if TeamName(i) == TeamName(j) {
      assert TeamName(i)[5..] == NatToString(i + 1);
      assert TeamName(j)[5..] == NatToString(j + 1);
      NatToStringInjective(i + 1, j + 1);
    }
  }

  /** The team-count loop of `updateTeamCount`: `count` teams numbered from 0, unscored, each
      with its name and colour; none for a count of zero or less. */
  method BuildTeams(count: int) returns (teams: seq<Team>)
    ensures |teams| == if count > 0 then count else 0
    ensures forall i :: 0 <= i < |teams| ==> teams[i] == Team(i, TeamName(i), 0, TeamColor(i))
  {
    teams := [];
    var i := 0;
    while i < count
      invariant 0 <= i <= (if count > 0 then count else 0) && |teams| == i
      invariant forall k :: 0 <= k < i ==> teams[k] == Team(k, TeamName(k), 0, TeamColor(k))
    {
      teams := teams + [Team(i, TeamName(i), 0, TeamColor(i))];
      i := i + 1;
    }
  }

  /** The assignment `autoAssignTeams` sends: player `i`, in list order, goes to team
      `i mod teamCount`. */
  function RoundRobin(players: seq<PlayerInfo>, teamCount: nat): (pts: seq<PlayerTeam>)
    requires teamCount > 0
    ensures |pts| == |players|
    ensures forall i :: 0 <= i < |players| ==> pts[i] == PlayerTeam(players[i].id, JNum(i % teamCount))
  {
    if players == [] then []
    else
      var last := |players| - 1;
      RoundRobin(players[..last], teamCount) + [PlayerTeam(players[last].id, JNum(last % teamCount))]
  }

  /** The loop of `autoAssignTeams`. */
  method AutoAssignment(players: seq<PlayerInfo>, teamCount: nat) returns (pts: seq<PlayerTeam>)
    requires teamCount > 0
    ensures pts == RoundRobin(players, teamCount)
  {
    pts := [];
    var i := 0;
    while i < |players|
      invariant 0 <= i <= |players|
      invariant pts == RoundRobin(players[..i], teamCount)
    {
      assert players[..i + 1][..i] == players[..i];
      pts := pts + [PlayerTeam(players[i].id, JNum(i % teamCount))];
      i := i + 1;
    }
    assert players[..i] == players;
  }

  predicate DistinctIds<C>(players: seq<Player<C>>)
  {
    forall i, j :: 0 <= i < j < |players| ==> players[i].id != players[j].id
  }

  lemma {:induction false} LastTeamForOnly(pts: seq<PlayerTeam>, m: nat)
    requires m < |pts|
    requires forall k :: 0 <= k < |pts| && k != m ==> pts[k].playerId != pts[m].playerId
    ensures LastTeamFor(pts, pts[m].playerId) == Some(pts[m].team)
  {
    if m < |pts| - 1 {
      var init := pts[..|pts| - 1];
      assert init[m] == pts[m];
      LastTeamForOnly(init, m);
    }
  }

  /** With distinct player ids, once every member applies the round-robin assignment, player
      `k` is on team `k mod teamCount`. */
  lemma RoundRobinApplied(players: seq<PlayerInfo>, teamCount: nat, k: nat)
    requires teamCount > 0 && DistinctIds(players) && k < |players|
    ensures AssignTeams(players, RoundRobin(players, teamCount))[k].team == JNum(k % teamCount)
  {
    var pts := RoundRobin(players, teamCount);
    AssignTeamsResult(players, pts, k);
    LastTeamForOnly(pts, k);
  }

  /** `[...Array(n).keys()]`. */
  function Indices(n: nat): (r: seq<int>)
    ensures |r| == n
    ensures forall i :: 0 <= i < n ==> r[i] == i
  {
    if n == 0 then [] else Indices(n - 1) + [n - 1]
  }

  /** The songs used when the song file cannot be fetched. */
  const DemoSongs: seq<Song> := [
    Song("demo_1", "Demo Song 1", "Artist 1", 1980),
    Song("demo_2", "Demo Song 2", "Artist 2", 1990),
    Song("demo_3", "Demo Song 3", "Artist 3", 2000)]

  /** The settings the host asks for when creating a room. */
  const HostSettings := JObj([("teamCount", JNum(2)), ("cardsToWin", JNum(10)), ("musicSource", JStr("local"))])

  /** The room code typed by a joiner, trimmed and upper-cased. */
  function RoomCodeInput(input: string): (code: string)
    ensures |code| <= |input|
    ensures forall k :: 0 <= k < |code| ==> !('a' <= code[k] <= 'z')
  {
    ToUpper(Trim(input))
  }

  /** `joinGame`'s check: a non-empty code of exactly six characters. */
  predicate AcceptableCode(code: string)
  {
    code != "" && |code| == 6
  }

  /** Upper-casing twice is upper-casing once, so the code sent is already in the form the
      input box shows. */
  lemma RoomCodeInputStable(input: string)
    ensures ToUpper(RoomCodeInput(input)) == RoomCodeInput(input)
  {
    ToUpperIdempotent(Trim(input));
  }

  /** The next team in turn, `(i + 1) % n` with JavaScript's remainder. */
  function NextTeam(i: int, n: nat): (r: int)
    requires n > 0
    ensures 0 <= i ==> 0 <= r < n
    ensures 0 <= i < n ==> (r == 0 <==> i == n - 1)
    ensures 0 <= i < n - 1 ==> r == i + 1
  {
    JsRem(i + 1, n)
  }

  /** The deck the host shuffles is a permutation of all song indices, so every index it holds
      names a song. */
  lemma ShuffledIndicesInRange(n: nat, picks: seq<nat>, k: nat)
    requires ValidPicks(picks, n)
    requires k < n
    ensures 0 <= Shuffled(Indices(n), picks)[k] < n
  {
    var deck := Shuffled(Indices(n), picks);
    assert deck[k] in multiset(Indices(n));
    var m :| 0 <= m < n && Indices(n)[m] == deck[k];
  }

  class TeamGame {
    const client: SessionClient
    var gameData: seq<Song>
    /** Indices into `gameData`; the next card is the last one. */
    var deck: seq<int>
    var timeline: seq<Song>
    var currentCard: Option<Song>
    var teams: seq<Team>
    var currentTeamIndex: int
    var yearsRevealed: bool

    constructor (playerId: string, savedName: Option<string>)
      ensures fresh(client) && client.playerId == playerId && client.players == [] && !client.socketOpen
      ensures client.sent == []
      ensures gameData == [] && deck == [] && timeline == [] && currentCard.None? && teams == []
      ensures currentTeamIndex == 0 && !yearsRevealed
    {
      client := new SessionClient(playerId, savedName);
      gameData := [];
      deck := [];
      timeline := [];
      currentCard := None;
      teams := [];
      currentTeamIndex := 0;
      yearsRevealed := false;
    }

    /** `drawNextCard`: pop the last deck index and take that song into the hand with its years
        hidden; an index that names no song leaves the hand empty. An empty deck changes nothing. */
    method DrawNextCard()
      modifies this`deck, this`currentCard, this`yearsRevealed
      ensures old(deck) == [] ==>
        deck == [] && currentCard == old(currentCard) && yearsRevealed == old(yearsRevealed)
      ensures old(deck) != [] ==>
        var i := old(deck)[|old(deck)| - 1];
        && deck == old(deck)[..|old(deck)| - 1]
        && currentCard == (if 0 <= i < |gameData| then Some(gameData[i]) else None)
        && !yearsRevealed
    {
      if deck == [] {
        return;
      }
      var i := deck[|deck| - 1];
      deck := deck[..|deck| - 1];
      currentCard := if 0 <= i < |gameData| then Some(gameData[i]) else None;
      yearsRevealed := false;
    }

    /** `nextTurn`: the turn passes to the next team and the new index is relayed. */
    method NextTurn()
      requires |teams| > 0
      modifies this`currentTeamIndex, client`sent
      ensures currentTeamIndex == NextTeam(old(currentTeamIndex), |teams|)
      ensures client.sent == old(client.sent) +
        (if client.socketOpen then [GameActionRequest("next_turn", TurnData(currentTeamIndex))] else [])
    {
      currentTeamIndex := NextTeam(currentTeamIndex, |teams|);
      client.SendGameAction("next_turn", TurnData(currentTeamIndex));
    }

    /** `placeCard`: with a card in hand, insert it locally, relay the placement, draw the next
        card and pass the turn. Nothing happens with an empty hand. When the drawn index names
        no song, rendering the missing card throws, so the turn does not pass and no `next_turn`
        is relayed. */
    method PlaceCard(position: string)
      requires currentCard.Some? ==> |teams| > 0
      modifies this`timeline, this`deck, this`currentCard, this`yearsRevealed, this`currentTeamIndex, client`sent
      ensures old(currentCard).None? ==>
        timeline == old(timeline) && deck == old(deck) && currentCard == old(currentCard)
        && yearsRevealed == old(yearsRevealed)
        && currentTeamIndex == old(currentTeamIndex) && client.sent == old(client.sent)
      ensures old(currentCard).Some? ==>
        var card := old(currentCard).value;
        && timeline == Insert(old(timeline), card, position)
        && (old(deck) != [] ==>
              var i := old(deck)[|old(deck)| - 1];
              && deck == old(deck)[..|old(deck)| - 1] && !yearsRevealed
              && currentCard == (if 0 <= i < |gameData| then Some(gameData[i]) else None))
        && (old(deck) == [] ==>
              deck == [] && currentCard == old(currentCard) && yearsRevealed == old(yearsRevealed))
      ensures old(currentCard).Some? && currentCard.Some? ==>
        && currentTeamIndex == NextTeam(old(currentTeamIndex), |teams|)
        && client.sent == old(client.sent) +
             (if client.socketOpen
              then [GameActionRequest("place_card", PlacementData(position, old(currentCard).value)),
                    GameActionRequest("next_turn", TurnData(currentTeamIndex))]
              else [])
      ensures old(currentCard).Some? && currentCard.None? ==>
        && currentTeamIndex == old(currentTeamIndex)
        && client.sent == old(client.sent) +
             (if client.socketOpen
              then [GameActionRequest("place_card", PlacementData(position, old(currentCard).value))]
              else [])
    {
      if currentCard.None? {
        return;
      }
      var card := currentCard.value;
      timeline := Insert(timeline, card, position);
      client.SendGameAction("place_card", PlacementData(position, card));
      DrawNextCard();
      if currentCard.None? {
        // The popped index named no song: rendering the missing card fails before the turn passes.
        return;
      }
      NextTurn();
    }

    /** `syncPlaceCard`: a placement relayed from another member is inserted by the same rule.
        A relayed payload without a readable card changes nothing. */
    method SyncPlaceCard(data: Json)
      modifies this`timeline
      ensures RelayedCard(data).None? ==> timeline == old(timeline)
      ensures RelayedCard(data).Some? ==>
        timeline == Insert(old(timeline), RelayedCard(data).value, RelayedPosition(data))
    {
      var card := RelayedCard(data);
      if card.Some? {
        timeline := Insert(timeline, card.value, RelayedPosition(data));
      }
    }

    /** `revealYears`: show the years here and tell the other members to do the same. With an
        empty hand, rendering it throws after the flag is set and before the relay. */
    method RevealYears()
      modifies this`yearsRevealed, client`sent
      ensures yearsRevealed
      ensures client.sent == old(client.sent) +
        (if client.socketOpen && currentCard.Some? then [GameActionRequest("reveal_years", JObj([]))] else [])
    {
      yearsRevealed := true;
      if currentCard.None? {
        // Rendering the empty hand fails before the reveal is relayed.
        return;
      }
      client.SendGameAction("reveal_years", JObj([]));
    }

    /** `checkOrder`: with fewer than two cards nothing is judged. A chronological timeline earns
        the team whose turn it is ten points per card; no other team's score changes. When the
        turn index names no team the award cannot be made and nothing changes. */
    method CheckOrder() returns (verdict: Solo.Verdict)
      modifies this`teams
      ensures |timeline| < 2 ==> verdict == Solo.TooFew
      ensures |timeline| >= 2 ==> (verdict == Solo.Correct <==> Chronological(timeline))
      ensures |timeline| >= 2 ==> (verdict == Solo.Incorrect <==> !Chronological(timeline))
      ensures |teams| == |old(teams)|
      ensures forall k :: 0 <= k < |teams| ==>
        teams[k] == old(teams)[k].(score := teams[k].score)
        && teams[k].score == old(teams)[k].score +
             (if verdict == Solo.Correct && k == currentTeamIndex then Solo.OrderBonus(timeline) else 0)
    {
      if |timeline| < 2 {
        return Solo.TooFew;
      }
      var isCorrect := CheckTimeline(timeline);
      OrderedIffChronological(timeline);
      if isCorrect {
        verdict := Solo.Correct;
        if 0 <= currentTeamIndex < |teams| {
          var team := teams[currentTeamIndex];
          teams := teams[currentTeamIndex := team.(score := team.score + Solo.OrderBonus(timeline))];
        }
      } else {
        verdict := Solo.Incorrect;
      }
    }

    /** `handleGameAction`: a relayed placement is inserted, a relayed reveal shows the years,
        a relayed turn change adopts the sender's index; anything else is ignored. The receiver
        neither pops its deck nor draws, so when the sender placed the card both were holding,
        that card stays in the receiver's hand although it is already on the timeline. */
    method HandleGameAction(action: string, data: Json)
      modifies this`timeline, this`yearsRevealed, this`currentTeamIndex
      ensures action == "place_card" ==>
        (RelayedCard(data).Some? ==> timeline == Insert(old(timeline), RelayedCard(data).value, RelayedPosition(data)))
        && (RelayedCard(data).None? ==> timeline == old(timeline))
      ensures action != "place_card" ==> timeline == old(timeline)
      ensures deck == old(deck) && currentCard == old(currentCard)
      ensures action == "place_card" && old(currentCard).Some? && RelayedCard(data) == old(currentCard) ==>
        currentCard.value in timeline
      ensures yearsRevealed == (action == "reveal_years" || old(yearsRevealed))
      ensures currentTeamIndex ==
        if action == "next_turn" && RelayedTeamIndex(data).Some? then RelayedTeamIndex(data).value
        else old(currentTeamIndex)
    {
      if action == "place_card" {
        SyncPlaceCard(data);
      } else if action == "reveal_years" {
        yearsRevealed := true;
      } else if action == "next_turn" {
        var index := RelayedTeamIndex(data);
        if index.Some? {
          currentTeamIndex := index.value;
        }
      }
    }

    /** Take over a started game's state: its songs, a copy of its deck and its teams; the
        first team has the turn and the first card is drawn. The timeline is kept as it is. */
    method Adopt(state: GameState)
      modifies this`gameData, this`deck, this`teams, this`currentTeamIndex, this`currentCard, this`yearsRevealed
      ensures gameData == state.songs && teams == state.teams && currentTeamIndex == 0
      ensures state.deck != [] ==>
        var i := state.deck[|state.deck| - 1];
        && deck == state.deck[..|state.deck| - 1] && !yearsRevealed
        && currentCard == (if 0 <= i < |state.songs| then Some(state.songs[i]) else None)
      ensures state.deck == [] ==>
        deck == [] && currentCard == old(currentCard) && yearsRevealed == old(yearsRevealed)
    {
      gameData := state.songs;
      deck := state.deck;
      teams := state.teams;
      currentTeamIndex := 0;
      DrawNextCard();
    }

    /** `handleGameStarted`: adopt the state the host handed out. A state without readable
        songs, deck and teams changes nothing. */
    method HandleGameStarted(gameState: Json)
      modifies this`gameData, this`deck, this`teams, this`currentTeamIndex, this`currentCard, this`yearsRevealed
      ensures DecodeGameState(gameState).None? ==>
        gameData == old(gameData) && deck == old(deck) && teams == old(teams)
        && currentTeamIndex == old(currentTeamIndex) && currentCard == old(currentCard)
        && yearsRevealed == old(yearsRevealed)
      ensures DecodeGameState(gameState).Some? ==>
        var state := DecodeGameState(gameState).value;
        && gameData == state.songs && teams == state.teams && currentTeamIndex == 0
        && (state.deck != [] ==>
              var i := state.deck[|state.deck| - 1];
              && deck == state.deck[..|state.deck| - 1] && !yearsRevealed
              && currentCard == (if 0 <= i < |state.songs| then Some(state.songs[i]) else None))
        && (state.deck == [] ==>
              deck == [] && currentCard == old(currentCard) && yearsRevealed == old(yearsRevealed))
    {
      var decoded := DecodeGameState(gameState);
      if decoded.Some? {
        Adopt(decoded.value);
      }
    }

    /** `handleTeamsUpdated`: adopt the host's team list. */
    method HandleTeamsUpdated(teamList: Json)
      modifies this`teams
      ensures teams == if DecodeTeams(teamList).Some? then DecodeTeams(teamList).value else old(teams)
    {
      var decoded := DecodeTeams(teamList);
      if decoded.Some? {
        teams := decoded.value;
      }
    }

    /** `updateTeamCount`: zero (or less) clears the teams; otherwise `count` fresh teams. */
    method UpdateTeamCount(count: int)
      modifies this`teams
      ensures |teams| == if count > 0 then count else 0
      ensures forall i :: 0 <= i < |teams| ==> teams[i] == Team(i, TeamName(i), 0, TeamColor(i))
    {
      if count == 0 {
        teams := [];
        return;
      }
      teams := BuildTeams(count);
    }

    /** `autoAssignTeams`: the host spreads the room's players over the teams round-robin and
        sends the team list with that assignment. */
    method AutoAssignTeams()
      requires |teams| > 0
      modifies client`sent
      ensures client.sent == old(client.sent) +
        (if client.socketOpen
         then [ClientMsg.UpdateTeams(EncodeTeams(teams), RoundRobin(client.players, |teams|))]
         else [])
    {
      var pts := AutoAssignment(client.players, |teams|);
      client.UpdateTeams(EncodeTeams(teams), pts);
    }

    /** `hostGame`: connect, then ask for a room with the host's settings. */
    method HostGame(reachable: bool)
      modifies client`socketOpen, client`sent
      ensures client.socketOpen == reachable
      ensures client.sent == old(client.sent) +
        (if reachable then [ClientMsg.CreateRoom(client.playerId, client.playerName, Some(HostSettings))] else [])
    {
      client.Connect(reachable);
      if reachable {
        client.CreateRoom(Some(HostSettings));
      }
    }

    /** `joinGame`: a typed code that is not six characters after trimming is refused before
        connecting; otherwise connect and ask to join. */
    method JoinGame(input: string, reachable: bool)
      modifies client`socketOpen, client`sent
      ensures !AcceptableCode(RoomCodeInput(input)) ==>
        client.socketOpen == old(client.socketOpen) && client.sent == old(client.sent)
      ensures AcceptableCode(RoomCodeInput(input)) ==>
        client.socketOpen == reachable
        && client.sent == old(client.sent) +
             (if reachable then [ClientMsg.JoinRoom(RoomCodeInput(input), client.playerId, client.playerName)] else [])
    {
      var code := RoomCodeInput(input);
      if !AcceptableCode(code) {
        return;
      }
      client.Connect(reachable);
      if reachable {
        client.JoinRoom(code);
      }
    }

    /** `leaveRoom`. */
    method LeaveRoom()
      modifies client`sent
      ensures client.sent == old(client.sent) + (if client.socketOpen then [ClientMsg.LeaveRoom] else [])
    {
      client.LeaveRoom();
    }

    /** `startGame` on the host: load the songs (the demo songs when the fetch fails), shuffle
        their indices and hand songs, deck and teams to the room. */
    method StartGame(fetched: Option<seq<Song>>, picks: seq<nat>)
      requires ValidPicks(picks, if fetched.Some? then |fetched.value| else |DemoSongs|)
      modifies this`gameData, client`sent
      ensures gameData == if fetched.Some? then fetched.value else DemoSongs
      ensures client.sent == old(client.sent) +
        (if client.socketOpen
         then [ClientMsg.StartGame(EncodeGameState(GameState(gameData, Shuffled(Indices(|gameData|), picks), teams)))]
         else [])
    {
      gameData := if fetched.Some? then fetched.value else DemoSongs;
      var deck := ShuffleArray(Indices(|gameData|), picks);
      client.StartGame(EncodeGameState(GameState(gameData, deck, teams)));
    }

    /** A server message reaches the session client first; the callbacks it fires drive the
        game: a new room gets two teams, a team update or a game start is adopted, a relayed
        action is applied. */
    method Receive(msg: ServerMsg)
      modifies this, client`roomCode, client`isHost, client`players, client`teams
      ensures client.roomCode == match msg
        case RoomCreated(code, _) => Some(code)
        case RoomJoined(code, _, _, _, _) => Some(code)
        case _ => old(client.roomCode)
      ensures client.isHost == match msg
        case RoomCreated(_, _) => true
        case RoomJoined(_, host, _, _, _) => host
        case HostTransferred => true
        case _ => old(client.isHost)
      ensures client.players == match msg
        case RoomJoined(_, _, list, _, _) => list
        case PlayerJoined(p) => old(client.players) + [p]
        case PlayerLeft(id) => RemoveById(old(client.players), id)
        case TeamsUpdated(_, playerTeams) => AssignTeams(old(client.players), playerTeams)
        case _ => old(client.players)
      ensures client.teams == match msg
        case RoomJoined(_, _, _, t, _) => t
        case TeamsUpdated(t, _) => t
        case _ => old(client.teams)
      ensures !msg.RoomCreated? && !msg.TeamsUpdated? && !msg.GameStarted? ==> teams == old(teams)
      ensures msg.RoomCreated? ==>
        teams == [Team(0, TeamName(0), 0, TeamColor(0)), Team(1, TeamName(1), 0, TeamColor(1))]
      ensures msg.TeamsUpdated? ==>
        teams == if DecodeTeams(msg.teams).Some? then DecodeTeams(msg.teams).value else old(teams)
      ensures msg.GameStarted? && DecodeGameState(msg.gameState).None? ==>
        gameData == old(gameData) && deck == old(deck) && teams == old(teams)
        && currentTeamIndex == old(currentTeamIndex) && currentCard == old(currentCard)
        && yearsRevealed == old(yearsRevealed)
      ensures msg.GameStarted? && DecodeGameState(msg.gameState).Some? ==>
        var state := DecodeGameState(msg.gameState).value;
        && gameData == state.songs && teams == state.teams && currentTeamIndex == 0
        && (state.deck != [] ==>
              var i := state.deck[|state.deck| - 1];
              && deck == state.deck[..|state.deck| - 1] && !yearsRevealed
              && currentCard == (if 0 <= i < |state.songs| then Some(state.songs[i]) else None))
        && (state.deck == [] ==>
              deck == [] && currentCard == old(currentCard) && yearsRevealed == old(yearsRevealed))
      ensures msg.GameStarted? ==> timeline == old(timeline)
      ensures msg.GameAction? && msg.action == "place_card" ==>
        timeline == if RelayedCard(msg.data).Some?
                    then Insert(old(timeline), RelayedCard(msg.data).value, RelayedPosition(msg.data))
                    else old(timeline)
      ensures msg.GameAction? && msg.action != "place_card" ==> timeline == old(timeline)
      ensures msg.GameAction? ==> yearsRevealed == (msg.action == "reveal_years" || old(yearsRevealed))
      ensures msg.GameAction? ==>
        currentTeamIndex ==
          if msg.action == "next_turn" && RelayedTeamIndex(msg.data).Some? then RelayedTeamIndex(msg.data).value
          else old(currentTeamIndex)
      ensures msg.GameAction? ==>
        gameData == old(gameData) && deck == old(deck) && teams == old(teams) && currentCard == old(currentCard)
      ensures !msg.GameAction? && !msg.GameStarted? ==>
        gameData == old(gameData) && timeline == old(timeline) && deck == old(deck) && currentCard == old(currentCard)
        && currentTeamIndex == old(currentTeamIndex) && yearsRevealed == old(yearsRevealed)
    {
      var notify := client.HandleMessage(msg);
      if notify.None? {
        return;
      }
      match notify.value {
        case RoomCreated(_, _) =>
          UpdateTeamCount(2);
        case TeamsUpdated(teamList, _) =>
          HandleTeamsUpdated(teamList);
        case GameStarted(gameState) =>
          HandleGameStarted(gameState);
        case GameAction(action, _, data) =>
          HandleGameAction(action, data);
        case _ =>
      }
    }
  }
}
