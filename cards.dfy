/** Song cards and the rules every game variant shares: the chronological-order check, the
    placement rule (front or back of the timeline) and the Fisher-Yates shuffle of a deck. */
module Cards {

  /** A song record of the game data; `year` is the release year placement is judged by. */
  datatype Song = Song(id: string, title: string, artist: string, year: int)

  /** The timeline read front to back never goes back in time: every adjacent pair is in
      non-decreasing year order (equal years pass in either order). */
  predicate Ordered(timeline: seq<Song>)
  {
    forall i :: 0 <= i < |timeline| - 1 ==> timeline[i].year <= timeline[i + 1].year
  }

  /** Independent reading of "chronological": every earlier card is no younger than every later one. */
  predicate Chronological(timeline: seq<Song>)
  {
    forall i, j :: 0 <= i < j < |timeline| ==> timeline[i].year <= timeline[j].year
  }

  /** Checking adjacent pairs, as the games do, decides exactly whether the whole timeline is
      chronological. */
  lemma {:induction false} OrderedIffChronological(timeline: seq<Song>)
    ensures Ordered(timeline) <==> Chronological(timeline)
  {
    if Ordered(timeline) {
      forall i, j | 0 <= i < j < |timeline|
        ensures timeline[i].year <= timeline[j].year
      {
        OrderedSpan(timeline, i, j);
      }
    }
  }

  lemma {:induction false} OrderedSpan(timeline: seq<Song>, i: nat, j: nat)
    requires Ordered(timeline)
    requires i <= j < |timeline|
    ensures timeline[i].year <= timeline[j].year
    decreases j - i
  {
    if i < j {
      OrderedSpan(timeline, i + 1, j);
    }
  }

  /** The order check of `checkOrder` and of the hot-seat `placeCard`: scan adjacent pairs and
      stop at the first one whose years go backwards. */
  method CheckTimeline(timeline: seq<Song>) returns (isCorrect: bool)
    ensures isCorrect <==> Ordered(timeline)
  {
    isCorrect := true;
    var i := 0;
    while i < |timeline| - 1
      invariant 0 <= i && (timeline == [] ==> i == 0) && (timeline != [] ==> i <= |timeline| - 1)
      invariant isCorrect
      invariant forall k :: 0 <= k < i ==> timeline[k].year <= timeline[k + 1].year
    {
      if timeline[i].year > timeline[i + 1].year {
        isCorrect := false;
        break;
      }
      i := i + 1;
    }
  }

  /** The placement rule: `"before"` puts the card at the front (`unshift`), any other position
      at the back (`push`). */
  function Insert(timeline: seq<Song>, card: Song, position: string): (r: seq<Song>)
    ensures |r| == |timeline| + 1
    ensures multiset(r) == multiset(timeline) + multiset{card}
    ensures position == "before" ==> r[0] == card && r[1..] == timeline
    ensures position != "before" ==> r[|timeline|] == card && r[..|timeline|] == timeline
  {
    if position == "before" then [card] + timeline else timeline + [card]
  }

  /** Placing a card keeps a chronological timeline chronological exactly when the new card is
      no younger than the old front (placed before) or no older than the old back (placed after). */
  lemma {:induction false} InsertKeepsOrder(timeline: seq<Song>, card: Song, position: string)
    requires Ordered(timeline)
    ensures Ordered(Insert(timeline, card, position)) <==>
      (timeline == []
       || (position == "before" && card.year <= timeline[0].year)
       || (position != "before" && timeline[|timeline| - 1].year <= card.year))
  {
    var r := Insert(timeline, card, position);
    if timeline != [] {
      if position == "before" {
        assert r[0] == card && r[1] == timeline[0];
      } else {
        assert r[|r| - 2] == timeline[|timeline| - 1] && r[|r| - 1] == card;
      }
    }
  }

  /** Exchange of two cells, as the destructuring swap `[a[i], a[j]] = [a[j], a[i]]`. */
  function Swap<T>(s: seq<T>, i: nat, j: nat): (r: seq<T>)
    requires i < |s| && j < |s|
    ensures |r| == |s| && r[i] == s[j] && r[j] == s[i]
    ensures forall k :: 0 <= k < |s| && k != i && k != j ==> r[k] == s[k]
    ensures multiset(r) == multiset(s)
  {
    if i == j then s else s[i := s[j]][j := s[i]]
  }

  /** Random draws supplied from outside: `picks[i]` is the `Math.floor(Math.random() * (i + 1))`
      drawn when the loop is at index `i`, so it lies in `0..i`. */
  predicate ValidPicks(picks: seq<nat>, n: nat)
  {
    |picks| == n && forall i :: 0 <= i < n ==> picks[i] <= i
  }

  /** The deck after the Fisher-Yates loop has run down to index `i`: the swaps for loop indices
      `|s| - 1, |s| - 2, ..., i + 1` have been applied, in that order. */
  function ShuffledDownTo<T>(s: seq<T>, picks: seq<nat>, i: int): (r: seq<T>)
    requires ValidPicks(picks, |s|) && -1 <= i
    ensures |r| == |s| && multiset(r) == multiset(s)
    decreases |s| - i
  {
    if i >= |s| - 1 then s
    else Swap(ShuffledDownTo(s, picks, i + 1), i + 1, picks[i + 1])
  }

  /** The whole shuffle of `shuffleArray`, for the given random draws: the loop stops before
      index 0, whose only possible swap is with itself. */
  function Shuffled<T>(s: seq<T>, picks: seq<nat>): (r: seq<T>)
    requires ValidPicks(picks, |s|)
    ensures |r| == |s| && multiset(r) == multiset(s)
  {
    ShuffledDownTo(s, picks, 0)
  }

  method SwapCells<T>(a: array<T>, i: nat, j: nat)
    requires i < a.Length && j < a.Length
    modifies a
    ensures a[..] == Swap(old(a[..]), i, j)
  {
    a[i], a[j] := a[j], a[i];
  }

  /** The swap loop of `shuffleArray`, counting down from the last cell to index 1. */
  method ShuffleCells<T>(a: array<T>, picks: seq<nat>)
    requires ValidPicks(picks, a.Length)
    modifies a
    ensures a[..] == Shuffled(old(a[..]), picks)
  {
    ghost var input := a[..];
    if a.Length == 0 {
      return;
    }
    var i := a.Length - 1;
    while i > 0
      invariant 0 <= i < a.Length
      invariant a[..] == ShuffledDownTo(input, picks, i)
    {
      ghost var before := a[..];
      SwapCells(a, i, picks[i]);
      assert a[..] == Swap(before, i, picks[i]) == ShuffledDownTo(input, picks, i - 1);
      i := i - 1;
    }
    assert i == 0;
  }

  /** `shuffleArray`: copies the input into a fresh array and shuffles the copy. The result is
      the specified shuffle, hence a permutation of the input; the input itself is a value and
      stays as it was. */
  method ShuffleArray<T>(input: seq<T>, picks: seq<nat>) returns (shuffled: seq<T>)
    requires ValidPicks(picks, |input|)
    ensures shuffled == Shuffled(input, picks)
    ensures |shuffled| == |input| && multiset(shuffled) == multiset(input)
  {
    var a := new T[|input|](k requires 0 <= k < |input| => input[k]);
    assert a[..] == input;
    ShuffleCells(a, picks);
    shuffled := a[..];
  }
}
