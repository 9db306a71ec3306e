/** The single-player game: a shuffled deck, a timeline that starts with one anchor card, a
    current card drawn from the end of the deck, a reveal flag and a score. The hot-seat game
    reuses this state and all of its operations except the ones it overrides. */
module Solo {
  import opened Basics
  import opened Cards

  /** The outcome `checkOrder` reports. `TooFew` is the "place at least 2 cards" notice. */
  datatype Verdict = TooFew | Correct | Incorrect

  /** Points a correct order check is worth: ten per card on the timeline. */
  function OrderBonus(timeline: seq<Song>): nat
  {
    |timeline| * 10
  }

  /** The cards a game holds: those on the timeline, those left in the deck and the card in hand. */
  function Holding(timeline: seq<Song>, deck: seq<Song>, current: Option<Song>): multiset<Song>
  {
    multiset(timeline) + multiset(deck) + (if current.Some? then multiset{current.value} else multiset{})
  }

  lemma SplitLast(s: seq<Song>)
    requires s != []
    ensures multiset(s) == multiset(s[..|s| - 1]) + multiset{s[|s| - 1]}
  {
    assert s == s[..|s| - 1] + [s[|s| - 1]];
  }

  /** Drawing the last deck card into an empty hand keeps every card in exactly one place. */
  lemma DrawConserves(timeline: seq<Song>, deck: seq<Song>, songs: seq<Song>)
    requires deck != [] && multiset(timeline) + multiset(deck) == multiset(songs)
    ensures Holding(timeline, deck[..|deck| - 1], Some(deck[|deck| - 1])) == multiset(songs)
  {
    SplitLast(deck);
  }

  class MelodyTimeline {
    var gameData: seq<Song>
    var deck: seq<Song>
    var timeline: seq<Song>
    var currentCard: Option<Song>
    var score: int
    var yearsRevealed: bool

    constructor ()
      ensures gameData == [] && deck == [] && timeline == [] && currentCard.None?
      ensures score == 0 && !yearsRevealed
    {
      gameData := [];
      deck := [];
      timeline := [];
      currentCard := None;
      score := 0;
      yearsRevealed := false;
    }

    /** The state `startGame` leaves after loading `songs` and shuffling them with `picks`,
        where `held` was the card in hand before: the shuffle's last card is the only timeline
        card; with two or more songs the second-to-last is in hand, years hidden, and the rest
        is the deck in shuffled order; with one song the deck is empty and `held` stays in hand.
        The score is zero and the years are hidden. */
    predicate Started(songs: seq<Song>, picks: seq<nat>, held: Option<Song>)
      requires |songs| > 0 && ValidPicks(picks, |songs|)
      reads this
    {
      var shuffled := Shuffled(songs, picks);
      && gameData == songs && timeline == [shuffled[|shuffled| - 1]] && score == 0 && !yearsRevealed
      && (|songs| >= 2 ==> deck == shuffled[..|shuffled| - 2] && currentCard == Some(shuffled[|shuffled| - 2]))
      && (|songs| == 1 ==> deck == [] && currentCard == held)
    }

    /** Every loaded song is in exactly one place: the timeline, the deck or the hand. */
    predicate Conserved()
      reads this
    {
      Holding(timeline, deck, currentCard) == multiset(gameData)
    }

    /** `startGame` up to its final draw: when the song list loaded, shuffle a copy into the
        deck, clear the timeline, the score and the reveal flag, and move the last deck card onto
        the timeline as its anchor. A failed load changes nothing. `picks` are the shuffle's
        random draws. */
    method Deal(data: Option<seq<Song>>, picks: seq<nat>) returns (loaded: bool)
      requires data.Some? ==> |data.value| > 0 && ValidPicks(picks, |data.value|)
      modifies this`gameData, this`deck, this`timeline, this`score, this`yearsRevealed
      ensures loaded == data.Some?
      ensures !loaded ==>
        gameData == old(gameData) && deck == old(deck) && timeline == old(timeline)
        && score == old(score) && yearsRevealed == old(yearsRevealed)
      ensures loaded ==>
        var shuffled := Shuffled(data.value, picks);
        && gameData == data.value
        && deck == shuffled[..|shuffled| - 1]
        && timeline == [shuffled[|shuffled| - 1]]
        && score == 0 && !yearsRevealed
      ensures loaded ==> multiset(timeline) + multiset(deck) == multiset(gameData)
    {
      loaded := data.Some?;
      if loaded {
        var songs := data.value;
        var shuffled := ShuffleArray(songs, picks);
        var rest, anchor := shuffled[..|shuffled| - 1], shuffled[|shuffled| - 1];
        SplitLast(shuffled);
        gameData, deck, timeline := songs, rest, [anchor];
        score, yearsRevealed := 0, false;
      }
    }

    /** `drawNextCard`: take the last deck card into the hand with its years hidden. With an
        empty deck nothing changes; in particular the previous card stays in the hand. */
    method DrawNextCard()
      modifies this`deck, this`currentCard, this`yearsRevealed
      ensures old(deck) == [] ==>
        deck == [] && currentCard == old(currentCard) && yearsRevealed == old(yearsRevealed)
      ensures old(deck) != [] ==>
        && deck == old(deck)[..|old(deck)| - 1]
        && currentCard == Some(old(deck)[|old(deck)| - 1])
        && !yearsRevealed
      ensures old(deck) != [] ==> deck + [currentCard.value] == old(deck)
      ensures old(deck) != [] ==> multiset(deck) + multiset{currentCard.value} == multiset(old(deck))
    {
      if deck == [] {
        return;
      }
      SplitLast(deck);
      currentCard := Some(deck[|deck| - 1]);
      deck := deck[..|deck| - 1];
      yearsRevealed := false;
    }

    /** `startGame`: deal, then draw the first card into the hand. */
    method StartGame(data: Option<seq<Song>>, picks: seq<nat>)
      requires data.Some? ==> |data.value| > 0 && ValidPicks(picks, |data.value|)
      modifies this
      ensures data.None? ==>
        gameData == old(gameData) && deck == old(deck) && timeline == old(timeline)
        && currentCard == old(currentCard) && score == old(score) && yearsRevealed == old(yearsRevealed)
      ensures data.Some? ==> Started(data.value, picks, old(currentCard))
      ensures data.Some? && |data.value| >= 2 ==> Conserved()
    {
      var loaded := Deal(data, picks);
      if loaded {
        ghost var shuffled := Shuffled(data.value, picks);
        ghost var dealt := deck;
        assert dealt == shuffled[..|shuffled| - 1];
        if dealt != [] {
          DrawConserves(timeline, dealt, gameData);
        }
        DrawNextCard();
        if dealt != [] {
          assert deck == dealt[..|dealt| - 1] == shuffled[..|shuffled| - 2];
          assert currentCard == Some(dealt[|dealt| - 1]) == Some(shuffled[|shuffled| - 2]);
        }
      }
    }

    /** `placeCard`: with a card in hand, insert it at the front ("before") or the back (any
        other position), then draw. Nothing happens with an empty hand. */
    method PlaceCard(position: string)
      modifies this`timeline, this`deck, this`currentCard, this`yearsRevealed
      ensures old(currentCard).None? ==>
        timeline == old(timeline) && deck == old(deck) && currentCard == old(currentCard)
        && yearsRevealed == old(yearsRevealed)
      ensures old(currentCard).Some? ==>
        timeline == Insert(old(timeline), old(currentCard).value, position)
      ensures old(currentCard).Some? && old(deck) != [] ==>
        currentCard.Some? && deck + [currentCard.value] == old(deck) && !yearsRevealed
      ensures old(currentCard).Some? && old(deck) == [] ==>
        deck == [] && currentCard == old(currentCard) && yearsRevealed == old(yearsRevealed)
      ensures old(Conserved()) && old(currentCard).Some? && old(deck) != [] ==> Conserved()
      ensures old(Conserved()) && old(currentCard).Some? && old(deck) == [] ==>
        multiset(timeline) == multiset(gameData)
    {
      if currentCard.None? {
        return;
      }
      timeline := Insert(timeline, currentCard.value, position);
      DrawNextCard();
    }

    /** `revealYears`: show the years of the card in hand. */
    method RevealYears()
      modifies this`yearsRevealed
      ensures yearsRevealed
    {
      yearsRevealed := true;
    }

    /** `checkOrder`: with fewer than two cards nothing is judged. Otherwise the timeline is
        correct exactly when it is chronological, and a correct timeline earns ten points per
        card, every time it is checked. */
    method CheckOrder() returns (verdict: Verdict)
      modifies this`score
      ensures |timeline| < 2 ==> verdict == TooFew
      ensures |timeline| >= 2 ==> (verdict == Correct <==> Chronological(timeline))
      ensures |timeline| >= 2 ==> (verdict == Incorrect <==> !Chronological(timeline))
      ensures score == old(score) + (if verdict == Correct then OrderBonus(timeline) else 0)
    {
      if |timeline| < 2 {
        return TooFew;
      }
      var isCorrect := CheckTimeline(timeline);
      OrderedIffChronological(timeline);
      if isCorrect {
        score := score + OrderBonus(timeline);
        verdict := Correct;
      } else {
        verdict := Incorrect;
      }
    }
  }
}
