# Melody timeline: rooms, session mirror and game rules

This project models the core of a browser music-timeline game. Players hear a song and place
its card before or after a timeline of earlier cards, then check whether the timeline is
chronological. Three parts are modelled:

- **The room coordinator** (`multiplayer-server.js`), as the class `Server.RoomServer`.
  - State: the room map, the known connections and an outbox of (recipient, message) envelopes.
  - Each connection has an open flag and the room/player tag a socket carries.
  - Requests it handles: create, join, leave, close, relay of game actions, team updates and game start.
  - Their effects are also written as functions (`JoinEffect`, `LeaveEffect`, `Fanout`). The lemmas state who receives what and how rooms change.
- **The session client** (`multiplayer-client.js`), as `Client.SessionClient`.
  - It keeps a local copy of the room code, the host flag, the players and the teams, in step with the coordinator's messages.
  - It records every request its open socket transmits.
- **The game rules.**
  - The single-player game (`game.js`) is `Solo.MelodyTimeline`.
  - The hot-seat game (`hotseat-game.js`) is `HotSeat.HotSeatGame`. It holds the single-player state as `base` and overrides placement and drawing.
  - The team game over the room protocol (`multiplayer-game.js`) is `TeamGame.TeamGame`.
  - Supporting modules:
    - `Cards`: songs, the order check, the insertion rule and the Fisher-Yates shuffle.
    - `Protocol`: players and the wire messages as datatypes, and the list filters and team assignment shared by the coordinator and the client.
    - `Payloads`: the JSON objects the team game puts in opaque payloads, with decoders and round-trip lemmas.
    - `Json`, `Text` and `Basics`: JSON values, trimming, ASCII upper-casing, decimal numerals, `Option`, and JavaScript's `%`.

Inputs that the code draws from outside are parameters:
- room codes and player ids;
- the random swap indices of the shuffle, as a sequence `picks` with `picks[i] <= i`;
- whether a socket connects;
- whether the song file loads, and its contents;
- the name saved in storage.

A message the coordinator sends with `ws.send` goes into the outbox whether or not that socket is open. A broadcast only addresses members whose socket is open and that are not excluded.

On a room-code collision, `handleCreateRoom` stores the new room with `rooms.set` and so replaces the existing room under that code; `Server.RoomServer.HandleCreateRoom` overwrites in the same way.

## Model

| member | source | states |
|---|---|---|
| Basics.JsRem | multiplayer-game.js:482 | JavaScript's truncating `%`: equals Dafny's `%` for a non-negative dividend; for a negative one it lies in `(-n, 0]` and equals `a + n * (-a / n)`, the remainder of truncating division |
| Text.Trim | hotseat-game.js:33 | `trim()` yields a string with no leading or trailing blank, no longer than the input |
| Text.TrimCutsOnlyBlanks | hotseat-game.js:33 | the trimmed string is a contiguous slice of the input, and everything cut off on either side is blank |
| Text.TrimIdempotent | multiplayer-game.js:120 | trimming twice gives the same as trimming once |
| Text.ToUpper | multiplayer-game.js:120 | upper-casing maps each character by itself, so the length is kept, and leaves no lower-case ASCII letter |
| Text.ToUpperIdempotent | multiplayer-game.js:120 | upper-casing twice gives the same as upper-casing once |
| Text.NatToString | hotseat-game.js:33 | the decimal numeral of a number used in `Player ${index + 1}`: digits only, with no leading zero |
| Text.NatToStringRoundTrip | hotseat-game.js:33 | reading the numeral back gives the number |
| Text.NatToStringInjective | multiplayer-game.js:247 | different numbers have different numerals |
| Json.Lookup | multiplayer-game.js:178-180 | a member read gives nothing exactly when no field has the key, and otherwise the value of the last field with that key |
| Json.LookupDistinct | multiplayer-game.js:178-180 | in an object with distinct keys, a member read returns the field written under that key |
| Json.GetWritten2 | multiplayer-game.js:433 | each key of a two-member object literal reads back its own value |
| Json.GetWritten3 | multiplayer-game.js:325-329 | each key of a three-member object literal reads back its own value |
| Json.GetWritten4 | multiplayer-game.js:245-250 | each key of a four-member object literal reads back its own value |
| Cards.OrderedIffChronological | game.js:189-195 | non-decreasing years in every adjacent pair hold exactly when they hold for every pair of positions |
| Cards.OrderedSpan | game.js:189-195 | an adjacent-pair-ordered timeline is ordered between any two positions |
| Cards.CheckTimeline | game.js:189-195 | the flag-and-break loop returns true exactly when every adjacent pair has non-decreasing years |
| Cards.Insert | game.js:163-167 | `'before'` puts the card in front of the unchanged timeline, any other position puts it behind; the length grows by one and the multiset by the card |
| Cards.InsertKeepsOrder | game.js:163-167 | inserting into an ordered timeline keeps it ordered exactly when the card's year fits against the neighbour it lands next to |
| Cards.Swap | game.js:86 | the destructuring swap exchanges two cells, keeps all others and permutes the sequence |
| Cards.ShuffledDownTo | game.js:84-87 | after the loop has run down to any index, the sequence is a permutation of the input |
| Cards.Shuffled | game.js:82-89 | the completed shuffle is a permutation of its input, of the same length |
| Cards.ShuffleCells | game.js:84-87 | the in-place swap loop over an array leaves the array equal to the specified shuffle of its old contents |
| Cards.ShuffleArray | game.js:82-89 | the copy is shuffled and equals the specified shuffle; it is a permutation of the input, which is a value and stays unchanged |
| Protocol.Roster | multiplayer-server.js:112 | the player list sent to a joiner has one public entry per member, in member order |
| Protocol.RemoveById | multiplayer-server.js:129 | the filter drops every entry with the id and keeps every other entry |
| Protocol.RemoveByIdSplits | multiplayer-client.js:68 | the filter works piecewise on a split list, so the survivors keep their original order |
| Protocol.RemoveAbsentId | multiplayer-server.js:129 | filtering out an id that no entry has leaves the list unchanged |
| Protocol.FirstIndexOf | multiplayer-server.js:171 | `find` locates the first entry with the id, and none before it has the id |
| Protocol.SameIdsSameFirstIndex | multiplayer-client.js:74 | lists with the same ids at every position find the same first entry for any id |
| Protocol.AssignTeam | multiplayer-server.js:170-175 | applying one `{playerId, team}` pair changes only the team field of entries |
| Protocol.AssignTeams | multiplayer-server.js:170-175 | applying all pairs changes only the team field of entries and keeps the length |
| Protocol.LastTeamFor | multiplayer-server.js:170-175 | no team is found for an id exactly when no pair lists that id; otherwise it is the team of the last pair listing the id |
| Protocol.AssignTeamsResult | multiplayer-server.js:170-175 | after the loop, the first entry with a listed id has the team of the last pair listing it; every other entry keeps its team, so unknown ids are ignored |
| Protocol.ApplyPlayerTeams | multiplayer-server.js:170-175 | the forEach/find loop computes exactly the specified assignment |
| Protocol.RosterAppend | multiplayer-client.js:64 | the public view of a list with one more member is the old view with that member's view appended |
| Protocol.RosterRemove | multiplayer-client.js:68 | removing an id and then taking public views gives the same as taking views and then removing the id |
| Protocol.RosterSplits | multiplayer-server.js:112 | taking public views distributes over list concatenation |
| Protocol.RosterAssign | multiplayer-client.js:73-76 | assigning teams and then taking public views gives the same as taking views and then assigning, so a client copy built from the roster follows the coordinator's list |
| Payloads.EncodeEach | multiplayer-game.js:325-329 | an encoded list has one item per element, each being that element's encoding |
| Payloads.DecodeEach | multiplayer-game.js:178-180 | a decoded list has one element per item, each decoding from its item |
| Payloads.EachRoundTrip | multiplayer-game.js:325-331 | if every element reads back, the whole list reads back |
| Payloads.SongRoundTrip | multiplayer-game.js:433 | a song written as `{id, title, artist, year}` reads back as the same song |
| Payloads.TeamRoundTrip | multiplayer-game.js:245-250 | a team written as `{id, name, score, color}` reads back as the same team |
| Payloads.DecodeTeams | multiplayer-game.js:173 | a readable team list is an array with one team per item |
| Payloads.TeamsRoundTrip | multiplayer-game.js:301 | a team list sent by the host reads back as the same list |
| Payloads.SongsRoundTrip | multiplayer-game.js:326 | a song list sent by the host reads back as the same songs |
| Payloads.DeckRoundTrip | multiplayer-game.js:327 | a deck of indices sent by the host reads back as the same deck |
| Payloads.GameStateRoundTrip | multiplayer-game.js:325-331 | the `{songs, deck, teams}` object handed out at game start reads back on every receiver as the same state |
| Payloads.RelayedPlacementMatchesLocal | multiplayer-game.js:424-447 | a relayed `{position, card}` yields the sender's card, and the receiver inserts it exactly where the sender's own placement put it |
| Payloads.TurnRoundTrip | multiplayer-game.js:484 | the relayed `{teamIndex}` reads back as the sender's new index |
| Server.RoomSettings | multiplayer-server.js:62 | `data.settings \|\| {teamCount: 2, cardsPerTeam: 10}`: the given settings when truthy, else the default; the result is always truthy |
| Server.Fanout | multiplayer-server.js:196-207 | a broadcast sends at most one envelope per member, each carrying the message to an open connection other than the excluded one |
| Server.FanoutSplits | multiplayer-server.js:202-206 | broadcasting to a split member list sends the two parts' envelopes in list order |
| Server.FanoutRecipients | multiplayer-server.js:196-207 | a connection receives the broadcast exactly when it is open, is not excluded and belongs to some member |
| Server.FanoutSnoc | multiplayer-server.js:202-206 | one more member adds at most its own envelope, at the end |
| Server.FanoutOnlyMsg | multiplayer-server.js:203-204 | every envelope of a broadcast carries the broadcast message to a reachable connection |
| Server.FanoutLoop | multiplayer-server.js:202-206 | the forEach loop produces exactly the specified broadcast |
| Server.LeaveKeepsRoomsOk | multiplayer-server.js:125-147 | leaving keeps every stored room filed under its own code, non-empty, within the cap, and using known connections only |
| Server.JoinRefused | multiplayer-server.js:79-95 | an unknown code or a room of 10 or more changes no room and answers only the joiner, with "Room not found" or "Room is full" |
| Server.JoinAccepted | multiplayer-server.js:97-120 | an accepted join appends exactly one team-less entry and changes no other room; the joiner first gets `room_joined` with isHost false and the full list; then exactly the open members other than the joiner get `player_joined`, and the joiner gets nothing more |
| Server.LeaveRemoves | multiplayer-server.js:125-133 | no entry with the leaver's id remains; the room is deleted exactly when nobody is left, and then nothing is sent; no other room changes |
| Server.LeaveHandsOver | multiplayer-server.js:134-145 | a departing host is replaced by the first remaining entry's connection, which alone gets `host_transferred`; otherwise the host stays; exactly the remaining open members get `player_left` |
| Server.SharedIdLeaveDropsHost | multiplayer-server.js:129-135 | when a non-host connection that joined with the host's player id leaves, the host's entry is removed too, and the room still names the host's connection as host |
| Server.LeaveAgainRemovesNobody | multiplayer-server.js:149-153 | a close after an explicit leave removes nobody, yet still broadcasts `player_left` to the remaining open members |
| Server.RoomServer.Connect | multiplayer-server.js:17 | a new connection gets a fresh id, is open and carries no tag; rooms and outbox are unchanged |
| Server.RoomServer.BroadcastToRoom | multiplayer-server.js:196-207 | appends exactly the specified broadcast to the outbox, or nothing for an unknown room |
| Server.RoomServer.HandleCreateRoom | multiplayer-server.js:54-76 | files, under the supplied code and overwriting any room there, a room whose only member and host is the creator (team null, teams empty, settings defaulted); tags the connection; answers `room_created` with isHost true |
| Server.RoomServer.HandleJoinRoom | multiplayer-server.js:78-123 | the rooms and outbox become exactly the join effect; the connection is tagged only when the join is accepted; the invariant (cap of 10 included) is kept |
| Server.RoomServer.HandleLeaveRoom | multiplayer-server.js:125-147 | the rooms and outbox become exactly the leave effect for the connection's tag; connections are unchanged; the invariant is kept |
| Server.RoomServer.HandleDisconnect | multiplayer-server.js:149-153 | marks the socket closed and leaves only when its tag has a non-empty room code; otherwise nothing else changes |
| Server.RoomServer.HandleGameAction | multiplayer-server.js:155-162 | relays the action, stamped with the sender's player id, to the open members of the sender's room other than the sender; rooms are unchanged |
| Server.RoomServer.HandleUpdateTeams | multiplayer-server.js:164-182 | from a non-host or without a room nothing changes and nothing is sent; from the host the teams are replaced, teams are assigned by the find rule, and every open member, sender included, gets `teams_updated` |
| Server.RoomServer.HandleStartGame | multiplayer-server.js:184-194 | from a non-host or without a room nothing changes; from the host the game state is stored and sent to every open member, sender included |
| Server.RoomServer.HandleMessage | multiplayer-server.js:20-47 | each request type has exactly its handler's effect: create files the room under the drawn code, join and leave have the join and leave effects, a game action is relayed to the other open members, team updates and game start act only for the host; an unknown type changes nothing; only create and join touch the connections; the invariant is kept |
| Client.StartingName | multiplayer-client.js:6 | the saved name when there is a non-empty one, else "Player"; never empty |
| Client.SessionClient.constructor | multiplayer-client.js:2-19 | a fresh session has no socket and no room, is not host, and has empty player and team lists |
| Client.SessionClient.Send | multiplayer-client.js:142-146 | transmits only over an open socket, otherwise silently drops the request |
| Client.SessionClient.CreateRoom | multiplayer-client.js:95-102 | sends one `create_room` carrying this client's id, name and the settings |
| Client.SessionClient.JoinRoom | multiplayer-client.js:104-111 | sends one `join_room` carrying the code and this client's id and name |
| Client.SessionClient.LeaveRoom | multiplayer-client.js:113-117 | sends one `leave_room` |
| Client.SessionClient.UpdateTeams | multiplayer-client.js:119-125 | sends one `update_teams` with the teams and assignments |
| Client.SessionClient.StartGame | multiplayer-client.js:127-132 | sends one `start_game` with the state |
| Client.SessionClient.SendGameAction | multiplayer-client.js:134-140 | sends one `game_action` with the action and data |
| Client.SessionClient.HandleMessage | multiplayer-client.js:49-93 | `room_created` sets the code and host flag; `room_joined` replaces code, flag, players and teams; `player_joined` appends one player; `player_left` filters the id out; `teams_updated` replaces teams and assigns listed known ids; `host_transferred` only sets the flag; other types change nothing; a callback fires for every known type except `host_transferred` |
| Solo.DrawConserves | game.js:98 | moving the deck's last card into an empty hand keeps every loaded song in exactly one place |
| Solo.MelodyTimeline.Deal | game.js:61-77 | with loaded songs, the deck is the shuffle minus its last card, which becomes the only timeline card; score 0, years hidden; together they hold exactly the loaded songs; a failed load changes nothing |
| Solo.MelodyTimeline.DrawNextCard | game.js:91-106 | a non-empty deck loses its last card to the hand, with years hidden; an empty deck changes nothing, so the previous card stays in hand |
| Solo.MelodyTimeline.StartGame | game.js:61-80 | with loaded songs, the timeline is the shuffle's last card; with two or more, the hand holds the shuffle's second-to-last card, the deck the rest in order, and timeline, deck and hand hold exactly the loaded songs; with one song the deck is empty and the previous hand stays; a failed load changes nothing |
| Solo.MelodyTimeline.PlaceCard | game.js:160-174 | without a card nothing changes; otherwise the card is inserted by the shared rule and the next card is drawn; timeline, deck and hand still hold exactly the loaded songs |
| Solo.MelodyTimeline.RevealYears | game.js:176-181 | years are shown |
| Solo.MelodyTimeline.CheckOrder | game.js:183-204 | fewer than two cards gives no verdict; otherwise correct exactly when chronological, and a correct check adds ten points per card again on every repeat |
| HotSeat.SeatNameShape | hotseat-game.js:33 | a seat name is never empty and never starts or ends with a blank; a non-blank input is used trimmed |
| HotSeat.DefaultNamesDistinct | hotseat-game.js:33 | blank inputs at different seats get different default names |
| HotSeat.SetupPlayers | hotseat-game.js:32-36 | one player per input, in order, named by the trimmed input or `Player i+1`, with score 0 and no cards placed |
| HotSeat.InsertByScore | hotseat-game.js:184 | inserting into a ranking keeps it ordered by score and adds exactly the player |
| HotSeat.Ranked | hotseat-game.js:184 | the final ranking is ordered by non-increasing score and is a permutation of the players |
| HotSeat.InsertByScoreTies | hotseat-game.js:184 | the inserted player lands ahead of every entry with the same score, and the others with that score keep their order |
| HotSeat.RankedStable | hotseat-game.js:184 | the ranking is stable: players with equal scores appear in the order they have in the player list, as the built-in sort keeps them |
| HotSeat.RankedOrder | hotseat-game.js:184 | the ranking is as long as the player list, and every entry scores at least as much as every later one |
| HotSeat.NextSeat | hotseat-game.js:112 | `(i + 1) % n` is a seat; it is the first seat exactly when `i` was the last, and otherwise the next one |
| HotSeat.HotSeatGame.EndGame | hotseat-game.js:180-184 | stores the ranking of a copy; the players keep their order |
| HotSeat.HotSeatGame.DrawNextCard | hotseat-game.js:171-178 | an empty deck ends the game instead of drawing; otherwise the inherited draw |
| HotSeat.HotSeatGame.DrawFirstCard | game.js:79 | the final draw of the start, after the deal: with two or more songs the second-to-last shuffled card goes into the hand and every card stays in exactly one place; with one song the game ends and the hand is kept |
| HotSeat.HotSeatGame.StartRound | game.js:61-80 | the inherited start with the overriding draw: the timeline is the shuffle's last card; with two or more songs the hand holds the second-to-last and the deck the rest; with one song the previous hand stays and the game ends and otherwise the ranking is untouched; a failed load changes nothing |
| HotSeat.HotSeatGame.StartGame | hotseat-game.js:30-41 | builds the seats from the inputs, then starts as `StartRound` does: the shuffle's last card on the timeline, the second-to-last in hand, the rest in the deck; a failed load changes no game state |
| HotSeat.HotSeatGame.EndTurn | hotseat-game.js:109-127 | hides the years, passes the turn to the next seat, adds a round exactly when it wraps to seat 0, then draws or ends the game on an empty deck |
| HotSeat.HotSeatGame.PlaceCard | hotseat-game.js:129-162 | without a card nothing changes; otherwise the card is inserted, only the current seat's count grows by one and its score by ten exactly when the whole timeline is chronological; no draw |
| TeamGame.TeamColor | multiplayer-game.js:304-307 | the colour of team `i` is the palette entry at `i mod 6` |
| TeamGame.TeamColorCycle | multiplayer-game.js:304-307 | colours repeat every six teams, and the first six differ |
| TeamGame.TeamNamesDistinct | multiplayer-game.js:247 | different teams get different names |
| TeamGame.BuildTeams | multiplayer-game.js:243-251 | `count` teams, none for a count of zero or less; team `i` has id `i`, name `Team i+1`, score 0 and colour `i mod 6` |
| TeamGame.RoundRobin | multiplayer-game.js:294-301 | one entry per player, in order; player `i` goes to team `i mod n` |
| TeamGame.AutoAssignment | multiplayer-game.js:295-299 | the forEach loop produces exactly the round-robin assignment |
| TeamGame.LastTeamForOnly | multiplayer-game.js:294-301 | a player id listed once is assigned the team of that one listing |
| TeamGame.RoundRobinApplied | multiplayer-game.js:294-301 | with distinct ids, after the auto-assignment is applied, player `k` is on team `k mod n` |
| TeamGame.Indices | multiplayer-game.js:323 | `[...Array(n).keys()]` is `0, 1, ..., n-1` |
| TeamGame.RoomCodeInput | multiplayer-game.js:120 | the trimmed, upper-cased code is no longer than the input and has no lower-case ASCII letter |
| TeamGame.RoomCodeInputStable | multiplayer-game.js:120 | the code sent is already upper-case |
| TeamGame.NextTeam | multiplayer-game.js:482 | from a valid index, the next is a valid index: the first team exactly after the last, otherwise the following one |
| TeamGame.ShuffledIndicesInRange | multiplayer-game.js:323 | every index of the host's shuffled deck names a song |
| TeamGame.TeamGame.DrawNextCard | multiplayer-game.js:356-364 | pops the last index and holds that song, years hidden (no card for an index naming no song); an empty deck changes nothing |
| TeamGame.TeamGame.NextTurn | multiplayer-game.js:481-485 | the turn moves to `(i + 1) % teams` and the new index is relayed |
| TeamGame.TeamGame.PlaceCard | multiplayer-game.js:424-438 | without a card nothing changes, the reveal flag included; otherwise insert, relay `place_card`, draw (the song at the popped index with the years hidden, or no card; an empty deck keeps the hand and the flag), then pass the turn and relay `next_turn`; when the draw leaves no card, rendering fails first, so the turn stays and no `next_turn` is relayed |
| TeamGame.TeamGame.SyncPlaceCard | multiplayer-game.js:440-447 | a relayed placement is inserted by the shared rule |
| TeamGame.TeamGame.RevealYears | multiplayer-game.js:449-455 | shows the years; relays `reveal_years` only with a card in hand, since rendering an empty hand fails before the relay |
| TeamGame.TeamGame.CheckOrder | multiplayer-game.js:457-479 | fewer than two cards gives no verdict; a correct timeline adds ten points per card to the team whose turn it is; no other team and no other field of a team changes |
| TeamGame.TeamGame.HandleGameAction | multiplayer-game.js:191-206 | a relayed placement is inserted, a reveal shows the years, a turn change adopts the sent index; anything else changes nothing; the deck and hand never change, so a relayed placement of the card the receiver holds leaves that card in hand while it is on the timeline |
| TeamGame.TeamGame.Adopt | multiplayer-game.js:178-186 | takes the songs, a copy of the deck and the teams, gives the turn to team 0, then draws; the timeline is kept |
| TeamGame.TeamGame.HandleGameStarted | multiplayer-game.js:177-189 | a readable state is adopted: its songs and teams, team 0 to play, the deck copy minus its last index, whose song is drawn into the hand with years hidden; an empty deck keeps the hand; an unreadable state changes nothing |
| TeamGame.TeamGame.HandleTeamsUpdated | multiplayer-game.js:172-175 | adopts the host's team list |
| TeamGame.TeamGame.UpdateTeamCount | multiplayer-game.js:232-254 | zero clears the teams; otherwise the specified fresh teams |
| TeamGame.TeamGame.AutoAssignTeams | multiplayer-game.js:294-301 | sends one `update_teams` with the team list and the round-robin assignment of the current players |
| TeamGame.TeamGame.HostGame | multiplayer-game.js:103-117 | after a connection, asks for a room with teamCount 2, cardsToWin 10 and local music; nothing is sent when the server is unreachable |
| TeamGame.TeamGame.JoinGame | multiplayer-game.js:119-132 | a code that is not six characters after trimming is refused before connecting; otherwise connect and ask to join with the upper-cased code |
| TeamGame.TeamGame.LeaveRoom | multiplayer-game.js:314-318 | sends one `leave_room` |
| TeamGame.TeamGame.StartGame | multiplayer-game.js:320-345 | uses the fetched songs or the three demo songs, and sends the songs, the shuffled index deck and the teams to the room |
| TeamGame.TeamGame.Receive | multiplayer-game.js:73-82 | the client mirror changes as the session client's handler says; a new room gets the two fresh teams; a readable team update or game state is adopted, with the deck and drawn card of a game start, which keeps the timeline; a game action is applied as `handleGameAction` does; no other message changes the teams, the songs or the play state |

## Left out

- JSON parsing and serialisation, the WebSocket transport, the `connect` promise and console logging. Messages are datatypes, payloads are a JSON datatype with integer numbers, and a socket is an open flag.
- All DOM rendering, audio and progress display (floating-point seconds), timers and page navigation.
- The Spotify authorisation flow and the Spotify game (`spotify-auth.js`, `spotify-game.js`): they are network plumbing around a remote API, and the Spotify game inherits its rules unchanged from the single-player game.
- Randomness: room codes, player ids and the shuffle's swap indices are parameters. The shuffle takes a sequence `picks` with `picks[i] <= i`, as `Math.floor(Math.random() * (i + 1))` produces.
- `localStorage`: the saved name is a constructor parameter, and `setPlayerName` is not modelled.
- Upper-casing covers ASCII letters only; Unicode case mapping, which can change the length (`ß` becomes `SS`), is not modelled. Trimming removes the full ECMAScript WhiteSpace and LineTerminator set.
- Strings are sequences of characters, not of UTF-16 code units. The six-character room-code check (multiplayer-game.js:121) uses `.length`, which counts code units. A code with a character outside the Basic Multilingual Plane, such as five letters and one emoji, is refused by the source (length 7) and accepted by `TeamGame.AcceptableCode` (length 6).
- Malformed messages are not modelled.
  - The coordinator receives typed requests, so a missing `playerTeams` (a TypeError in the source) cannot arise.
  - A team-game payload that does not decode leaves the game unchanged, where the source would store `undefined`.
- Solo.MelodyTimeline.Deal, Solo.MelodyTimeline.StartGame, HotSeat.HotSeatGame.StartRound, HotSeat.HotSeatGame.StartGame: require a non-empty song list when the load succeeds. With an empty list the source pops `undefined` onto the timeline, which the model has no value for.
- HotSeat.HotSeatGame.StartGame: requires at least one name input. With none the source fails reading `players[0].name` before the game starts.
- HotSeat.HotSeatGame.EndTurn, HotSeat.HotSeatGame.PlaceCard: require the turn index to name a seat, which `StartGame` establishes and `EndTurn` keeps.
- TeamGame.TeamGame.PlaceCard: requires at least one team when a card is in hand. With no teams the source computes the next turn as `NaN`, which integers cannot represent.
- TeamGame.TeamGame.NextTurn: requires at least one team, for the same reason.
- TeamGame.TeamGame.AutoAssignTeams: requires at least one team. The source offers the auto-assign button only inside a rendered team (multiplayer-game.js:281-285), so it cannot run with none; with none it would assign `NaN`.
- TeamGame.TeamGame.UpdateTeamCount: takes an integer; `parseInt` of a non-numeric value (`NaN`) is not modelled.
- TeamGame.TeamGame.CheckOrder: when the turn index names no team, the source throws a TypeError after computing the verdict and before showing it. The model leaves the teams unchanged and still reports the verdict.
- A placement after the single-player deck has run out is not reachable through the interface, because the placement controls are hidden then (game.js:94). The model still allows it and proves what it does.
