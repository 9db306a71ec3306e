/** The object shapes the team game puts inside opaque protocol payloads, and how a receiver reads
    them back: the game state `{songs, deck, teams}` of `start_game`, the `{position, card}` of a
    `place_card` action and the `{teamIndex}` of a `next_turn` action. The coordinator forwards
    these untouched; every client reads the same values the sender wrote. */
module Payloads {
  import opened Basics
  import opened Json
  import opened Cards

  /** A team of the team game: `{id, name, score, color}`. */
  datatype Team = Team(id: int, name: string, score: int, color: string)

  /** The snapshot the host broadcasts at game start: the song list, the shuffled deck as
      indices into it, and the teams. */
  datatype GameState = GameState(songs: seq<Song>, deck: seq<int>, teams: seq<Team>)

  function EncodeEach<T>(xs: seq<T>, encode: T -> Json): (r: seq<Json>)
    ensures |r| == |xs|
    ensures forall k :: 0 <= k < |xs| ==> r[k] == encode(xs[k])
  {
    if xs == [] then [] else [encode(xs[0])] + EncodeEach(xs[1..], encode)
  }

  /** Reads every item; fails if any item fails. */
  function DecodeEach<T>(items: seq<Json>, decode: Json -> Option<T>): (r: Option<seq<T>>)
    ensures r.Some? ==> |r.value| == |items|
    ensures r.Some? ==> forall k :: 0 <= k < |items| ==> decode(items[k]) == Some(r.value[k])
  {
    if items == [] then Some([])
    else match (decode(items[0]), DecodeEach(items[1..], decode))
      case (Some(x), Some(rest)) => Some([x] + rest)
      case _ => None
  }

  lemma {:induction false} EachRoundTrip<T>(xs: seq<T>, encode: T -> Json, decode: Json -> Option<T>)
    requires forall x :: decode(encode(x)) == Some(x)
    ensures DecodeEach(EncodeEach(xs, encode), decode) == Some(xs)
  {
    if xs != [] {
      var items := EncodeEach(xs, encode);
      assert items[1..] == EncodeEach(xs[1..], encode);
      EachRoundTrip(xs[1..], encode, decode);
      assert decode(items[0]) == Some(xs[0]);
      assert [xs[0]] + xs[1..] == xs;
    }
  }

  function EncodeSong(song: Song): Json
  {
    JObj([("id", JStr(song.id)), ("title", JStr(song.title)), ("artist", JStr(song.artist)), ("year", JNum(song.year))])
  }

  function DecodeSong(j: Json): Option<Song>
  {
    match (Get(j, "id"), Get(j, "title"), Get(j, "artist"), Get(j, "year"))
    case (Some(JStr(id)), Some(JStr(title)), Some(JStr(artist)), Some(JNum(year))) => Some(Song(id, title, artist, year))
    case _ => None
  }

  lemma SongRoundTrip(song: Song)
    ensures DecodeSong(EncodeSong(song)) == Some(song)
  {
    assert "id"[0] != "title"[0] && "id"[0] != "artist"[0] && "id"[0] != "year"[0];
    assert "title"[0] != "artist"[0] && "title"[0] != "year"[0] && "artist"[0] != "year"[0];
    GetWritten4("id", JStr(song.id), "title", JStr(song.title), "artist", JStr(song.artist), "year", JNum(song.year));
  }

  function EncodeTeam(team: Team): Json
  {
    JObj([("id", JNum(team.id)), ("name", JStr(team.name)), ("score", JNum(team.score)), ("color", JStr(team.color))])
  }

  function DecodeTeam(j: Json): Option<Team>
  {
    match (Get(j, "id"), Get(j, "name"), Get(j, "score"), Get(j, "color"))
    case (Some(JNum(id)), Some(JStr(name)), Some(JNum(score)), Some(JStr(color))) => Some(Team(id, name, score, color))
    case _ => None
  }

  lemma TeamRoundTrip(team: Team)
    ensures DecodeTeam(EncodeTeam(team)) == Some(team)
  {
    assert "id"[0] != "name"[0] && "id"[0] != "score"[0] && "id"[0] != "color"[0];
    assert "name"[0] != "score"[0] && "name"[0] != "color"[0] && "score"[0] != "color"[0];
    GetWritten4("id", JNum(team.id), "name", JStr(team.name), "score", JNum(team.score), "color", JStr(team.color));
  }

  function EncodeIndex(i: int): Json
  {
    JNum(i)
  }

  function DecodeIndex(j: Json): Option<int>
  {
    if j.JNum? then Some(j.n) else None
  }

  /** The team list as it travels in `update_teams` and in the game state. */
  function EncodeTeams(teams: seq<Team>): Json
  {
    JArr(EncodeEach(teams, EncodeTeam))
  }

  function DecodeTeams(j: Json): (r: Option<seq<Team>>)
    ensures r.Some? ==> j.JArr? && |r.value| == |j.items|
  {
    if j.JArr? then DecodeEach(j.items, DecodeTeam) else None
  }

  lemma TeamsRoundTrip(teams: seq<Team>)
    ensures DecodeTeams(EncodeTeams(teams)) == Some(teams)
  {
    forall t: Team ensures DecodeTeam(EncodeTeam(t)) == Some(t) { TeamRoundTrip(t); }
    EachRoundTrip(teams, EncodeTeam, DecodeTeam);
  }

  /** `{songs, deck, teams}` as the host hands it to `startGame`. */
  function EncodeGameState(state: GameState): Json
  {
    JObj([
      ("songs", JArr(EncodeEach(state.songs, EncodeSong))),
      ("deck", JArr(EncodeEach(state.deck, EncodeIndex))),
      ("teams", EncodeTeams(state.teams))])
  }

  /** What `handleGameStarted` reads: `gameState.songs`, `gameState.deck`, `gameState.teams`. */
  function DecodeGameState(j: Json): Option<GameState>
  {
    match (Get(j, "songs"), Get(j, "deck"), Get(j, "teams"))
    case (Some(JArr(songs)), Some(JArr(deck)), Some(teams)) =>
      (match (DecodeEach(songs, DecodeSong), DecodeEach(deck, DecodeIndex), DecodeTeams(teams))
       case (Some(s), Some(d), Some(t)) => Some(GameState(s, d, t))
       case _ => None)
    case _ => None
  }

  lemma SongsRoundTrip(songs: seq<Song>)
    ensures DecodeEach(EncodeEach(songs, EncodeSong), DecodeSong) == Some(songs)
  {
    forall s: Song ensures DecodeSong(EncodeSong(s)) == Some(s) { SongRoundTrip(s); }
    EachRoundTrip(songs, EncodeSong, DecodeSong);
  }

  lemma DeckRoundTrip(deck: seq<int>)
    ensures DecodeEach(EncodeEach(deck, EncodeIndex), DecodeIndex) == Some(deck)
  {
    EachRoundTrip(deck, EncodeIndex, DecodeIndex);
  }

  /** Every client that receives the broadcast snapshot reads exactly the state the host sent. */
  lemma GameStateRoundTrip(state: GameState)
    ensures DecodeGameState(EncodeGameState(state)) == Some(state)
  {
    var j := EncodeGameState(state);
    var songs := EncodeEach(state.songs, EncodeSong);
    var deck := EncodeEach(state.deck, EncodeIndex);
    assert "songs"[0] != "deck"[0] && "songs"[0] != "teams"[0] && "deck"[0] != "teams"[0];
    GetWritten3("songs", JArr(songs), "deck", JArr(deck), "teams", EncodeTeams(state.teams));
    assert Get(j, "songs") == Some(JArr(songs)) && Get(j, "deck") == Some(JArr(deck));
    assert Get(j, "teams") == Some(EncodeTeams(state.teams));
    SongsRoundTrip(state.songs);
    DeckRoundTrip(state.deck);
    TeamsRoundTrip(state.teams);
  }

  /** `{ position, card }` of a `place_card` action. */
  function PlacementData(position: string, card: Song): Json
  {
    JObj([("position", JStr(position)), ("card", EncodeSong(card))])
  }

  /** How `syncPlaceCard` reads a placement: `data.position === 'before'` chooses the front, any
      other value (or none) the back; the card is `data.card`. */
  function RelayedPosition(data: Json): string
  {
    if Get(data, "position") == Some(JStr("before")) then "before" else "after"
  }

  function RelayedCard(data: Json): Option<Song>
  {
    match Get(data, "card")
    case Some(card) => DecodeSong(card)
    case None => None
  }

  /** A relayed placement inserts the same card at the same end as the sender's own placement. */
  lemma RelayedPlacementMatchesLocal(timeline: seq<Song>, position: string, card: Song)
    ensures RelayedCard(PlacementData(position, card)) == Some(card)
    ensures Insert(timeline, card, RelayedPosition(PlacementData(position, card))) == Insert(timeline, card, position)
  {
    SongRoundTrip(card);
    assert "position"[0] != "card"[0];
    GetWritten2("position", JStr(position), "card", EncodeSong(card));
  }

  /** `{ teamIndex }` of a `next_turn` action. */
  function TurnData(teamIndex: int): Json
  {
    JObj([("teamIndex", JNum(teamIndex))])
  }

  function RelayedTeamIndex(data: Json): Option<int>
  {
    match Get(data, "teamIndex")
    case Some(JNum(i)) => Some(i)
    case _ => None
  }

  lemma TurnRoundTrip(teamIndex: int)
    ensures RelayedTeamIndex(TurnData(teamIndex)) == Some(teamIndex)
  {
  }
}
