/** The hot-seat game: several players share one screen and one timeline. It keeps the state
    and operations of the single-player game and adds players, a round-robin turn, a round
    counter and a final ranking; it overrides placement (score per placement, no draw) and
    drawing (an empty deck ends the game). */
module HotSeat {
  import opened Basics
  import opened Text
  import opened Cards
  import opened Solo

  datatype SeatPlayer = SeatPlayer(name: string, score: int, cardsPlaced: int)

  /** Points for a placement that leaves the whole timeline chronological. */
  const PlacementBonus := 10

  /** The name of seat `index`: the trimmed input, or "Player <index + 1>" when that is empty. */
  function SeatName(input: string, index: nat): (name: string)
  {
    if Trim(input) != "" then Trim(input) else "Player " + NatToString(index + 1)
  }

  /** A seat name is never empty and never starts or ends with a blank; a non-blank input is
      used trimmed, and blank inputs at different seats get different names. */
  lemma SeatNameShape(input: string, index: nat)
    ensures SeatName(input, index) != ""
    ensures !IsSpace(SeatName(input, index)[0])
    ensures !IsSpace(SeatName(input, index)[|SeatName(input, index)| - 1])
    ensures Trim(input) != "" ==> SeatName(input, index) == Trim(input)
  {
    if Trim(input) == "" {
      var name := SeatName(input, index);
      var digits := NatToString(index + 1);
      assert name[|name| - 1] == digits[|digits| - 1];
    }
  }

  lemma {:induction false} DefaultNamesDistinct(a: string, i: nat, b: string, j: nat)
    requires Trim(a) == "" && Trim(b) == "" && i != j
    ensures SeatName(a, i) != SeatName(b, j)
  {
    if SeatName(a, i) == SeatName(b, j) {
      var prefix := "Player ";
      assert SeatName(a, i)[|prefix|..] == NatToString(i + 1);
      assert SeatName(b, j)[|prefix|..] == NatToString(j + 1);
      NatToStringInjective(i + 1, j + 1);
    }
  }

  /** The player list built from the name inputs: one player per input, in input order, with
      no score and no cards placed. */
  function SetupPlayers(inputs: seq<string>): (players: seq<SeatPlayer>)
    ensures |players| == |inputs|
    ensures forall i :: 0 <= i < |inputs| ==> players[i] == SeatPlayer(SeatName(inputs[i], i), 0, 0)
  {
    if inputs == [] then []
    else SetupPlayers(inputs[..|inputs| - 1]) + [SeatPlayer(SeatName(inputs[|inputs| - 1], |inputs| - 1), 0, 0)]
  }

  /** Highest score first: no entry outscores the one before it. */
  predicate ByScore(players: seq<SeatPlayer>)
  {
    forall i :: 0 <= i < |players| - 1 ==> players[i].score >= players[i + 1].score
  }

  /** Puts `p` in front of the first entry that does not outscore it. */
  function InsertByScore(p: SeatPlayer, ranked: seq<SeatPlayer>): (r: seq<SeatPlayer>)
    requires ByScore(ranked)
    ensures ByScore(r)
    ensures multiset(r) == multiset(ranked) + multiset{p}
    ensures r[0] == p || (ranked != [] && r[0] == ranked[0])
  {
    if ranked == [] || ranked[0].score <= p.score then [p] + ranked
    else
      assert ranked == [ranked[0]] + ranked[1..];
      [ranked[0]] + InsertByScore(p, ranked[1..])
  }

  /** The final ranking: a copy of the players ordered by score, highest first. */
  function Ranked(players: seq<SeatPlayer>): (r: seq<SeatPlayer>)
    ensures ByScore(r)
    ensures multiset(r) == multiset(players)
  {
    if players == [] then []
    else
      assert players == [players[0]] + players[1..];
      InsertByScore(players[0], Ranked(players[1..]))
  }

  /** The ranking has as many entries as there are players, and every entry is ranked at least
      as high as every later one. */
  lemma {:induction false} RankedOrder(players: seq<SeatPlayer>, i: nat, j: nat)
    requires i <= j < |Ranked(players)|
    ensures |Ranked(players)| == |players|
    ensures Ranked(players)[i].score >= Ranked(players)[j].score
    decreases j - i
  {
    assert |multiset(Ranked(players))| == |multiset(players)|;
    if i < j {
      RankedOrder(players, i + 1, j);
    }
  }

  /** The entries of `players` that score exactly `s`, in their order. */
  function WithScore(players: seq<SeatPlayer>, s: int): seq<SeatPlayer>
  {
    if players == [] then []
    else (if players[0].score == s then [players[0]] else []) + WithScore(players[1..], s)
  }

  /** Inserting `p` puts it ahead of every entry with the same score. */
  lemma {:induction false} InsertByScoreTies(p: SeatPlayer, ranked: seq<SeatPlayer>, s: int)
    requires ByScore(ranked)
    ensures WithScore(InsertByScore(p, ranked), s) == (if p.score == s then [p] else []) + WithScore(ranked, s)
  {
    if ranked == [] || ranked[0].score <= p.score {
      assert ([p] + ranked)[1..] == ranked;
    } else {
      var rest := InsertByScore(p, ranked[1..]);
      InsertByScoreTies(p, ranked[1..], s);
      assert ([ranked[0]] + rest)[1..] == rest;
    }
  }

  /** The ranking is stable: players with equal scores keep the order they had in the player
      list, as the source's built-in sort guarantees. */
  lemma {:induction false} RankedStable(players: seq<SeatPlayer>, s: int)
    ensures WithScore(Ranked(players), s) == WithScore(players, s)
  {
    if players != [] {
      RankedStable(players[1..], s);
      InsertByScoreTies(players[0], Ranked(players[1..]), s);
    }
  }

  /** The seat after `i` in a ring of `n` seats: `(i + 1) % n`. It is the next seat, or the
      first one after the last. */
  function NextSeat(i: nat, n: nat): (r: nat)
    requires i < n
    ensures r < n
    ensures r == 0 <==> i == n - 1
    ensures r != 0 ==> r == i + 1
  {
    (i + 1) % n
  }

  class HotSeatGame {
    /** The inherited single-player state. */
    const base: MelodyTimeline
    var players: seq<SeatPlayer>
    var currentPlayerIndex: nat
    var roundNumber: int
    /** The ranking shown once the game is over. */
    var finalRanking: Option<seq<SeatPlayer>>

    constructor ()
      ensures players == [] && currentPlayerIndex == 0 && roundNumber == 1 && finalRanking.None?
      ensures fresh(base) && base.timeline == [] && base.deck == [] && base.currentCard.None?
    {
      base := new MelodyTimeline();
      players := [];
      currentPlayerIndex := 0;
      roundNumber := 1;
      finalRanking := None;
    }

    /** The turn always points at a seat. */
    predicate Valid()
      reads this
    {
      currentPlayerIndex < |players|
    }

    /** `endGame`: ranks a copy of the players; the players themselves keep their order. */
    method EndGame()
      modifies this`finalRanking
      ensures finalRanking == Some(Ranked(players))
    {
      finalRanking := Some(Ranked(players));
    }

    /** The overriding `drawNextCard`: an empty deck ends the game instead of drawing. */
    method DrawNextCard()
      modifies this`finalRanking, base`deck, base`currentCard, base`yearsRevealed
      ensures old(base.deck) == [] ==>
        finalRanking == Some(Ranked(players)) && base.currentCard == old(base.currentCard)
        && base.deck == [] && base.yearsRevealed == old(base.yearsRevealed)
      ensures old(base.deck) != [] ==>
        && finalRanking == old(finalRanking)
        && base.deck == old(base.deck)[..|old(base.deck)| - 1]
        && base.currentCard == Some(old(base.deck)[|old(base.deck)| - 1])
        && !base.yearsRevealed
      ensures old(base.deck) != [] ==>
        multiset(base.deck) + multiset{base.currentCard.value} == multiset(old(base.deck))
    {
      if base.deck == [] {
        EndGame();
        return;
      }
      base.DrawNextCard();
    }

    /** The final draw of the inherited `startGame`, after the deal put the last card of
        `shuffled` on the timeline and left the rest in the deck. */
    method DrawFirstCard(ghost shuffled: seq<Song>)
      requires shuffled != [] && base.timeline == [shuffled[|shuffled| - 1]]
      requires base.deck == shuffled[..|shuffled| - 1]
      requires multiset(base.timeline) + multiset(base.deck) == multiset(base.gameData)
      modifies this`finalRanking, base`deck, base`currentCard, base`yearsRevealed
      ensures |shuffled| >= 2 ==>
        && base.deck == shuffled[..|shuffled| - 2] && base.currentCard == Some(shuffled[|shuffled| - 2])
        && !base.yearsRevealed && base.Conserved() && finalRanking == old(finalRanking)
      ensures |shuffled| == 1 ==>
        && finalRanking == Some(Ranked(players)) && base.deck == []
        && base.currentCard == old(base.currentCard) && base.yearsRevealed == old(base.yearsRevealed)
    {
      ghost var dealt := base.deck;
      if dealt != [] {
        DrawConserves(base.timeline, dealt, base.gameData);
      }
      DrawNextCard();
      if dealt != [] {
        assert base.deck == dealt[..|dealt| - 1] == shuffled[..|shuffled| - 2];
      }
    }

    /** The inherited `startGame`, whose final draw is the overriding one. */
    method StartRound(data: Option<seq<Song>>, picks: seq<nat>)
      requires data.Some? ==> |data.value| > 0 && ValidPicks(picks, |data.value|)
      modifies this`finalRanking, base`gameData, base`deck, base`timeline, base`currentCard, base`score, base`yearsRevealed
      ensures data.None? ==>
        base.gameData == old(base.gameData) && base.deck == old(base.deck) && base.timeline == old(base.timeline)
        && base.currentCard == old(base.currentCard) && base.score == old(base.score)
        && base.yearsRevealed == old(base.yearsRevealed) && finalRanking == old(finalRanking)
      ensures data.Some? ==> base.Started(data.value, picks, old(base.currentCard))
      ensures data.Some? && |data.value| >= 2 ==> finalRanking == old(finalRanking)
      ensures data.Some? && |data.value| >= 2 ==> base.Conserved()
      ensures data.Some? && |data.value| == 1 ==> finalRanking == Some(Ranked(players))
    {
      var loaded := base.Deal(data, picks);
      if loaded {
        DrawFirstCard(Shuffled(data.value, picks));
      }
    }

    /** The start button: one seat per name input, then the game starts. */
    method StartGame(inputs: seq<string>, data: Option<seq<Song>>, picks: seq<nat>)
      requires currentPlayerIndex < |inputs|
      requires data.Some? ==> |data.value| > 0 && ValidPicks(picks, |data.value|)
      modifies this`players, this`finalRanking,
        base`gameData, base`deck, base`timeline, base`currentCard, base`score, base`yearsRevealed
      ensures Valid()
      ensures players == SetupPlayers(inputs)
      ensures data.None? ==>
        base.gameData == old(base.gameData) && base.deck == old(base.deck) && base.timeline == old(base.timeline)
        && base.currentCard == old(base.currentCard) && base.score == old(base.score)
        && base.yearsRevealed == old(base.yearsRevealed) && finalRanking == old(finalRanking)
      ensures data.Some? ==> base.Started(data.value, picks, old(base.currentCard))
      ensures data.Some? && |data.value| >= 2 ==> finalRanking == old(finalRanking)
      ensures data.Some? && |data.value| >= 2 ==> base.Conserved()
      ensures data.Some? && |data.value| == 1 ==> finalRanking == Some(Ranked(players))
    {
      players := SetupPlayers(inputs);
      ghost var seats := players;
      ghost var ranking := finalRanking;
      StartRound(data, picks);
      assert players == seats;
      assert data.None? || |data.value| >= 2 ==> finalRanking == ranking;
    }

    /** `endTurn`: hide the years, pass the turn to the next seat (a new round starts when it
        wraps to the first seat), then draw, or end the game when the deck is empty. */
    method EndTurn()
      requires Valid()
      modifies this`currentPlayerIndex, this`roundNumber, this`finalRanking,
        base`deck, base`currentCard, base`yearsRevealed
      ensures Valid()
      ensures currentPlayerIndex == NextSeat(old(currentPlayerIndex), |players|)
      ensures roundNumber == old(roundNumber) + (if currentPlayerIndex == 0 then 1 else 0)
      ensures old(base.deck) == [] ==>
        finalRanking == Some(Ranked(players)) && !base.yearsRevealed
        && base.deck == [] && base.currentCard == old(base.currentCard)
      ensures old(base.deck) != [] ==>
        && finalRanking == old(finalRanking)
        && base.deck == old(base.deck)[..|old(base.deck)| - 1]
        && base.currentCard == Some(old(base.deck)[|old(base.deck)| - 1])
        && !base.yearsRevealed
    {
      base.yearsRevealed := false;
      currentPlayerIndex := NextSeat(currentPlayerIndex, |players|);
      if currentPlayerIndex == 0 {
        roundNumber := roundNumber + 1;
      }
      if |base.deck| > 0 {
        DrawNextCard();
      } else {
        EndGame();
      }
    }

    /** The overriding `placeCard`: with a card in hand, insert it, count it for the current
        seat and award that seat ten points when the whole timeline is now chronological. The
        hand and the deck are left as they are: the next card comes with the next turn. */
    method PlaceCard(position: string)
      requires Valid()
      modifies this`players, base`timeline
      ensures Valid()
      ensures old(base.currentCard).None? ==> players == old(players) && base.timeline == old(base.timeline)
      ensures old(base.currentCard).Some? ==>
        var i := currentPlayerIndex;
        var seat := old(players)[i];
        && base.timeline == Insert(old(base.timeline), old(base.currentCard).value, position)
        && players == old(players)[i := seat.(
             cardsPlaced := seat.cardsPlaced + 1,
             score := seat.score + (if Chronological(base.timeline) then PlacementBonus else 0))]
    {
      if base.currentCard.None? {
        return;
      }
      base.timeline := Insert(base.timeline, base.currentCard.value, position);
      var seat := players[currentPlayerIndex];
      seat := seat.(cardsPlaced := seat.cardsPlaced + 1);
      var isCorrect := CheckTimeline(base.timeline);
      OrderedIffChronological(base.timeline);
      if isCorrect {
        seat := seat.(score := seat.score + PlacementBonus);
      }
      players := players[currentPlayerIndex := seat];
    }
  }
}
