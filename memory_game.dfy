/** The memory game: twelve face-down cards, six pairs. Two cards are
    revealed at a time; a deferred step then keeps them (a match) or turns
    them back (an error). The game completes with the sixth match. */
module MemoryGame {
  import opened Types
  import opened Rounding
  import opened Shuffling

  datatype Card = Card(id: int, iconIndex: int, isFlipped: bool, isMatched: bool)

  const DeckSize: int := 12
  const PairCount: int := 6

  /** Card k of the dealt deck, before the shuffle. */
  function DealtCard(k: int): Card
  {
    Card(k, k / 2, false, false)
  }

  /** The `for (i = 0; i < 6; i++)` loop that pushes the two cards of each
      icon: ids 2i and 2i + 1, both showing icon i, face down, unmatched. */
  method Deal() returns (deck: seq<Card>)
    ensures |deck| == DeckSize
    ensures forall k :: 0 <= k < DeckSize ==> deck[k] == DealtCard(k)
  {
    deck := [];
    for i := 0 to PairCount
      invariant |deck| == 2 * i
      invariant forall k :: 0 <= k < 2 * i ==> deck[k] == DealtCard(k)
    {
      deck := deck + [Card(i * 2, i, false, false), Card(i * 2 + 1, i, false, false)];
    }
  }

  /** Each icon i in 0..5 is on exactly two dealt cards, ids 2i and 2i + 1. */
  lemma DealtPairs(i: int, k: int)
    requires 0 <= i < PairCount && 0 <= k < DeckSize
    ensures DealtCard(k).iconIndex == i <==> k == 2 * i || k == 2 * i + 1
  {
  }

  // ---------------------------------------------------------------------
  // The board invariant
  // ---------------------------------------------------------------------

  /** `cards.find(c => c.id === id)`: the index of the first card with that
      id, or -1 when there is none. */
  function IndexOf(cards: seq<Card>, id: int): (k: int)
    ensures -1 <= k < |cards|
    ensures k >= 0 ==> cards[k].id == id && forall i :: 0 <= i < k ==> cards[i].id != id
    ensures k == -1 ==> forall i :: 0 <= i < |cards| ==> cards[i].id != id
  {
    if cards == [] then -1
    else if cards[0].id == id then 0
    else
      var r := IndexOf(cards[1..], id);
      if r == -1 then -1 else r + 1
  }

  function MatchedCount(cards: seq<Card>): int
  {
    if cards == [] then 0
    else MatchedCount(cards[..|cards| - 1]) + (if cards[|cards| - 1].isMatched then 1 else 0)
  }

  /** Replacing one card changes the matched count by that card's change. */
  lemma {:induction false} MatchedCountUpdate(cards: seq<Card>, k: int, c: Card)
    requires 0 <= k < |cards|
    ensures MatchedCount(cards[k := c])
            == MatchedCount(cards) - (if cards[k].isMatched then 1 else 0) + (if c.isMatched then 1 else 0)
  {
    var n := |cards|;
    if k < n - 1 {
      assert cards[k := c][..n - 1] == cards[..n - 1][k := c];
      MatchedCountUpdate(cards[..n - 1], k, c);
    } else {
      assert cards[k := c][..n - 1] == cards[..n - 1];
    }
  }

  /** The matched count reaches the deck size exactly when every card is
      matched. */
  lemma {:induction false} MatchedCountFull(cards: seq<Card>)
    ensures 0 <= MatchedCount(cards) <= |cards|
    ensures MatchedCount(cards) == |cards| <==> forall i :: 0 <= i < |cards| ==> cards[i].isMatched
  {
    if cards != [] {
      var init := cards[..|cards| - 1];
      MatchedCountFull(init);
      assert forall i :: 0 <= i < |init| ==> init[i] == cards[i];
    }
  }

  /** The twelve cards carry the ids 0..11 once each, with icon id / 2. */
  ghost predicate DeckShape(cards: seq<Card>)
  {
    |cards| == DeckSize
    && (forall i :: 0 <= i < DeckSize ==> 0 <= cards[i].id < DeckSize && cards[i].iconIndex == cards[i].id / 2)
    && (forall i, j :: 0 <= i < j < DeckSize ==> cards[i].id != cards[j].id)
  }

  /** A matched card stays face up; the two cards of a pair are matched
      together; the face-up unmatched cards are exactly those listed in
      `flipped`, which holds at most two distinct ids of cards on the board. */
  ghost predicate FlagsConsistent(cards: seq<Card>, flipped: seq<int>)
    requires |cards| == DeckSize
  {
    (forall i :: 0 <= i < DeckSize && cards[i].isMatched ==> cards[i].isFlipped)
    && (forall i, j :: 0 <= i < DeckSize && 0 <= j < DeckSize && cards[i].iconIndex == cards[j].iconIndex ==>
          cards[i].isMatched == cards[j].isMatched)
    && |flipped| <= 2 && (|flipped| == 2 ==> flipped[0] != flipped[1])
    && (forall n :: 0 <= n < |flipped| ==> IndexOf(cards, flipped[n]) >= 0)
    && (forall i :: 0 <= i < DeckSize ==> (cards[i].isFlipped && !cards[i].isMatched <==> cards[i].id in flipped))
  }

  /** What holds of the board between any two events; `matches` counts the
      matched pairs. */
  ghost predicate BoardValid(cards: seq<Card>, flipped: seq<int>, matches: int)
  {
    DeckShape(cards) && FlagsConsistent(cards, flipped) && 2 * matches == MatchedCount(cards)
  }

  /** Changing only the flags of one card keeps the deck's shape and where
      each id is found. */
  lemma FlagsOnly(cards: seq<Card>, k: int, c: Card)
    requires DeckShape(cards) && 0 <= k < DeckSize
    requires c.id == cards[k].id && c.iconIndex == cards[k].iconIndex
    ensures DeckShape(cards[k := c])
    ensures forall id :: IndexOf(cards[k := c], id) == IndexOf(cards, id)
  {
    var after := cards[k := c];
    forall id ensures IndexOf(after, id) == IndexOf(cards, id) {
      var a := IndexOf(after, id);
      var b := IndexOf(cards, id);
      assert a >= 0 ==> cards[a].id == id;
      assert b >= 0 ==> after[b].id == id;
    }
  }

  /** Revealing a face-down, unmatched card while fewer than two are
      revealed keeps the board valid. */
  lemma FlipStep(cards: seq<Card>, flipped: seq<int>, matches: int, id: int)
    requires BoardValid(cards, flipped, matches) && |flipped| < 2
    requires IndexOf(cards, id) >= 0
    requires !cards[IndexOf(cards, id)].isFlipped && !cards[IndexOf(cards, id)].isMatched
    ensures var k := IndexOf(cards, id);
            BoardValid(cards[k := cards[k].(isFlipped := true)], flipped + [id], matches)
  {
    var k := IndexOf(cards, id);
    var c := cards[k].(isFlipped := true);
    var after := cards[k := c];
    FlagsOnly(cards, k, c);
    MatchedCountUpdate(cards, k, c);
    assert id !in flipped;
    forall i | 0 <= i < DeckSize
      ensures after[i].isFlipped && !after[i].isMatched <==> after[i].id in flipped + [id]
    {
      if i != k {
        assert after[i] == cards[i];
        assert cards[i].id != id;
      }
    }
  }

  /** The two revealed cards are distinct cards, both face up and unmatched,
      and they are the only face-up unmatched cards. */
  lemma RevealedPair(cards: seq<Card>, flipped: seq<int>, matches: int)
    requires BoardValid(cards, flipped, matches) && |flipped| == 2
    ensures var k1 := IndexOf(cards, flipped[0]);
            var k2 := IndexOf(cards, flipped[1]);
            0 <= k1 < DeckSize && 0 <= k2 < DeckSize && k1 != k2
            && cards[k1].isFlipped && !cards[k1].isMatched && cards[k2].isFlipped && !cards[k2].isMatched
            && forall i :: 0 <= i < DeckSize && i != k1 && i != k2 ==> !(cards[i].isFlipped && !cards[i].isMatched)
  {
    var k1 := IndexOf(cards, flipped[0]);
    var k2 := IndexOf(cards, flipped[1]);
    assert 0 <= k1 && 0 <= k2;
    forall i | 0 <= i < DeckSize && i != k1 && i != k2 ensures !(cards[i].isFlipped && !cards[i].isMatched) {
      assert i < k1 ==> cards[i].id != cards[k1].id;
      assert k1 < i ==> cards[k1].id != cards[i].id;
      assert i < k2 ==> cards[i].id != cards[k2].id;
      assert k2 < i ==> cards[k2].id != cards[i].id;
    }
  }

  /** After a match, the flags are consistent with nothing revealed: the
      pair's two cards are the only ones that change, and they are now
      matched and still face up. */
  lemma MatchFlags(cards: seq<Card>, flipped: seq<int>, matches: int)
    requires BoardValid(cards, flipped, matches) && |flipped| == 2
    requires cards[IndexOf(cards, flipped[0])].iconIndex == cards[IndexOf(cards, flipped[1])].iconIndex
    ensures var k1 := IndexOf(cards, flipped[0]);
            var k2 := IndexOf(cards, flipped[1]);
            FlagsConsistent(cards[k1 := cards[k1].(isMatched := true)][k2 := cards[k2].(isMatched := true)], [])
  {
    RevealedPair(cards, flipped, matches);
    var k1 := IndexOf(cards, flipped[0]);
    var k2 := IndexOf(cards, flipped[1]);
    var after := cards[k1 := cards[k1].(isMatched := true)][k2 := cards[k2].(isMatched := true)];
    PairClosed(cards, after, k1, k2);
    assert forall i :: 0 <= i < DeckSize && i != k1 && i != k2 ==> after[i] == cards[i];
  }

  /** Resolving two revealed cards with equal icons: both become matched,
      nothing stays revealed, and one more pair is matched. */
  lemma MatchStep(cards: seq<Card>, flipped: seq<int>, matches: int)
    requires BoardValid(cards, flipped, matches) && |flipped| == 2
    requires cards[IndexOf(cards, flipped[0])].iconIndex == cards[IndexOf(cards, flipped[1])].iconIndex
    ensures var k1 := IndexOf(cards, flipped[0]);
            var k2 := IndexOf(cards, flipped[1]);
            BoardValid(cards[k1 := cards[k1].(isMatched := true)][k2 := cards[k2].(isMatched := true)], [], matches + 1)
  {
    RevealedPair(cards, flipped, matches);
    MatchFlags(cards, flipped, matches);
    var k1 := IndexOf(cards, flipped[0]);
    var k2 := IndexOf(cards, flipped[1]);
    var mid := cards[k1 := cards[k1].(isMatched := true)];
    FlagsOnly(cards, k1, cards[k1].(isMatched := true));
    FlagsOnly(mid, k2, cards[k2].(isMatched := true));
    MatchedCountUpdate(cards, k1, cards[k1].(isMatched := true));
    MatchedCountUpdate(mid, k2, cards[k2].(isMatched := true));
  }

  /** After a mismatch, the flags are consistent with nothing revealed: the
      two revealed cards turn face down and nothing else changes. */
  lemma MismatchFlags(cards: seq<Card>, flipped: seq<int>, matches: int)
    requires BoardValid(cards, flipped, matches) && |flipped| == 2
    ensures var k1 := IndexOf(cards, flipped[0]);
            var k2 := IndexOf(cards, flipped[1]);
            FlagsConsistent(cards[k1 := cards[k1].(isFlipped := false)][k2 := cards[k2].(isFlipped := false)], [])
  {
    RevealedPair(cards, flipped, matches);
    var k1 := IndexOf(cards, flipped[0]);
    var k2 := IndexOf(cards, flipped[1]);
    var after := cards[k1 := cards[k1].(isFlipped := false)][k2 := cards[k2].(isFlipped := false)];
    assert forall i :: 0 <= i < DeckSize && i != k1 && i != k2 ==> after[i] == cards[i];
  }

  /** Resolving two revealed cards with different icons: both turn face
      down, nothing stays revealed, and the matched pairs stay the same. */
  lemma MismatchStep(cards: seq<Card>, flipped: seq<int>, matches: int)
    requires BoardValid(cards, flipped, matches) && |flipped| == 2
    ensures var k1 := IndexOf(cards, flipped[0]);
            var k2 := IndexOf(cards, flipped[1]);
            BoardValid(cards[k1 := cards[k1].(isFlipped := false)][k2 := cards[k2].(isFlipped := false)], [], matches)
  {
    RevealedPair(cards, flipped, matches);
    MismatchFlags(cards, flipped, matches);
    var k1 := IndexOf(cards, flipped[0]);
    var k2 := IndexOf(cards, flipped[1]);
    var mid := cards[k1 := cards[k1].(isFlipped := false)];
    FlagsOnly(cards, k1, cards[k1].(isFlipped := false));
    FlagsOnly(mid, k2, cards[k2].(isFlipped := false));
    MatchedCountUpdate(cards, k1, cards[k1].(isFlipped := false));
    MatchedCountUpdate(mid, k2, cards[k2].(isFlipped := false));
  }

  /** On a valid board, six matches means every card is matched, and the
      other way round. */
  lemma CompleteIffAllMatched(cards: seq<Card>, flipped: seq<int>, matches: int)
    requires BoardValid(cards, flipped, matches)
    ensures 0 <= matches <= PairCount
    ensures matches == PairCount <==> forall i :: 0 <= i < DeckSize ==> cards[i].isMatched
  {
    MatchedCountFull(cards);
  }

  /** A freshly shuffled deck is a valid board with nothing revealed. */
  lemma ShuffledDeckValid(cards: seq<Card>, dealt: seq<Card>)
    requires |dealt| == DeckSize && forall k :: 0 <= k < DeckSize ==> dealt[k] == DealtCard(k)
    requires multiset(cards) == multiset(dealt)
    ensures BoardValid(cards, [], 0)
  {
    assert Distinct(dealt) by {
      forall i, j | 0 <= i < j < |dealt| ensures dealt[i] != dealt[j] {
        assert dealt[i].id == i && dealt[j].id == j;
      }
    }
    PermutationDistinct(dealt, cards);
    assert |cards| == DeckSize by {
      assert |multiset(cards)| == |multiset(dealt)|;
    }
    forall i | 0 <= i < DeckSize ensures exists k :: 0 <= k < DeckSize && cards[i] == DealtCard(k) {
      assert cards[i] in multiset(dealt);
    }
    assert forall i :: 0 <= i < DeckSize ==> !cards[i].isMatched && !cards[i].isFlipped;
    assert MatchedCount(cards) == 0 by {
      MatchedCountFull(cards);
      MatchedZero(cards);
    }
  }

  lemma {:induction false} MatchedZero(cards: seq<Card>)
    requires forall i :: 0 <= i < |cards| ==> !cards[i].isMatched
    ensures MatchedCount(cards) == 0
  {
    if cards != [] {
      MatchedZero(cards[..|cards| - 1]);
    }
  }

  /** `Math.max(100 - errors * 10, 0)`: never negative, ten points less per
      error down to zero, and at most 100 for the error counts the game
      reaches. */
  function MemoryScore(errors: int): (s: int)
    ensures s >= 0
    ensures errors < 10 ==> s + 10 * errors == 100
    ensures errors >= 10 ==> s == 0
    ensures errors >= 0 ==> s <= 100
    ensures errors == 0 ==> s == 100
  {
    if 100 - errors * 10 > 0 then 100 - errors * 10 else 0
  }

  /** Each extra error costs ten points until the score reaches zero. */
  lemma MemoryScoreMonotone(e1: int, e2: int)
    requires e1 <= e2
    ensures MemoryScore(e2) <= MemoryScore(e1)
  {
  }

  class MemoryGame {
    var cards: seq<Card>
    var flippedCards: seq<int>
    var matches: int
    var attempts: int
    var errors: int
    var gameStarted: bool
    const startTime: int

    ghost predicate Valid()
      reads this
    {
      BoardValid(cards, flippedCards, matches) && matches >= 0 && errors >= 0
      && attempts == matches + errors + (if |flippedCards| == 2 then 1 else 0)
    }

    /** Mounting the game: the counters start at zero and `initializeGame`
        deals the deck and shuffles it in place with the swap draws. */
    constructor (now: int, swaps: seq<int>)
      requires |swaps| >= DeckSize - 1
      requires forall k :: 0 <= k < DeckSize - 1 ==> 0 <= swaps[k] <= DeckSize - 1 - k
      ensures Valid() && !gameStarted && startTime == now
      ensures flippedCards == [] && matches == 0 && attempts == 0 && errors == 0
      ensures |cards| == DeckSize && forall k :: 0 <= k < DeckSize ==> DealtCard(k) in cards
    {
      var dealt := Deal();
      var a := new Card[DeckSize](i requires 0 <= i < DeckSize => dealt[i]);
      assert a[..] == dealt;
      Shuffle(a, swaps);
      cards := a[..];
      flippedCards := [];
      matches := 0;
      attempts := 0;
      errors := 0;
      gameStarted := false;
      startTime := now;
      new;
      ShuffledDeckValid(cards, dealt);
      forall k | 0 <= k < DeckSize ensures DealtCard(k) in cards {
        assert dealt[k] in multiset(cards);
      }
    }

    /** `handleCardClick`: ignored while two cards are revealed, or when the
        card is absent, face up or matched. Otherwise that card turns face up
        and its id joins `flippedCards`; revealing the second card counts an
        attempt (and schedules `Resolve`). */
    method Click(cardId: int)
      requires Valid()
      modifies this
      ensures Valid() && gameStarted
      ensures var k := IndexOf(old(cards), cardId);
              if |old(flippedCards)| == 2 || k < 0 || old(cards)[k].isFlipped || old(cards)[k].isMatched then
                cards == old(cards) && flippedCards == old(flippedCards) && attempts == old(attempts)
              else
                cards == old(cards)[k := old(cards)[k].(isFlipped := true)]
                && flippedCards == old(flippedCards) + [cardId]
                && attempts == old(attempts) + (if |flippedCards| == 2 then 1 else 0)
      ensures matches == old(matches) && errors == old(errors)
    {
      MarkStarted();
      if |flippedCards| == 2 {
        return;
      }
      var k := IndexOf(cards, cardId);
      if k < 0 || cards[k].isFlipped || cards[k].isMatched {
        return;
      }
      Reveal(cardId);
    }

    /** The first click of a game raises `gameStarted`. */
    method MarkStarted()
      requires Valid()
      modifies this
      ensures Valid() && gameStarted
      ensures cards == old(cards) && flippedCards == old(flippedCards)
      ensures matches == old(matches) && attempts == old(attempts) && errors == old(errors)
    {
      gameStarted := true;
    }

    /** The part of `handleCardClick` past its guards: the card turns face
        up, its id joins `flippedCards`, and a second revealed card counts an
        attempt. */
    method Reveal(cardId: int)
      requires Valid() && |flippedCards| < 2
      requires IndexOf(cards, cardId) >= 0
      requires !cards[IndexOf(cards, cardId)].isFlipped && !cards[IndexOf(cards, cardId)].isMatched
      modifies this
      ensures Valid()
      ensures var k := IndexOf(old(cards), cardId);
              cards == old(cards)[k := old(cards)[k].(isFlipped := true)]
      ensures flippedCards == old(flippedCards) + [cardId]
      ensures attempts == old(attempts) + (if |flippedCards| == 2 then 1 else 0)
      ensures matches == old(matches) && errors == old(errors) && gameStarted == old(gameStarted)
    {
      var k := IndexOf(cards, cardId);
      FlipStep(cards, flippedCards, matches, cardId);
      flippedCards := flippedCards + [cardId];
      cards := cards[k := cards[k].(isFlipped := true)];
      if |flippedCards| == 2 {
        attempts := attempts + 1;
      }
    }

    /** The deferred step after a second card: equal icons mark both cards
        matched and count a match; different icons turn both back and count
        an error. Either way `flippedCards` empties, and then `attempts` is
        `matches + errors`. */
    method Resolve()
      requires Valid() && |flippedCards| == 2
      modifies this
      ensures Valid() && flippedCards == [] && attempts == matches + errors
      ensures var k1 := IndexOf(old(cards), old(flippedCards)[0]);
              var k2 := IndexOf(old(cards), old(flippedCards)[1]);
              var c1 := old(cards)[k1];
              var c2 := old(cards)[k2];
              if c1.iconIndex == c2.iconIndex then
                cards == old(cards)[k1 := c1.(isMatched := true)][k2 := c2.(isMatched := true)]
                && matches == old(matches) + 1 && errors == old(errors)
              else
                cards == old(cards)[k1 := c1.(isFlipped := false)][k2 := c2.(isFlipped := false)]
                && errors == old(errors) + 1 && matches == old(matches)
      ensures attempts == old(attempts) && gameStarted == old(gameStarted)
    {
      var k1 := IndexOf(cards, flippedCards[0]);
      var k2 := IndexOf(cards, flippedCards[1]);
      RevealedPair(cards, flippedCards, matches);
      var c1 := cards[k1];
      var c2 := cards[k2];
      if c1.iconIndex == c2.iconIndex {
        MatchStep(cards, flippedCards, matches);
        cards := cards[k1 := c1.(isMatched := true)][k2 := c2.(isMatched := true)];
        matches := matches + 1;
      } else {
        MismatchStep(cards, flippedCards, matches);
        cards := cards[k1 := c1.(isFlipped := false)][k2 := c2.(isFlipped := false)];
        errors := errors + 1;
      }
      flippedCards := [];
    }

    /** The completion effect: once `matches` reaches 6 it reports the
        result, with 100 points less ten per error (never below zero), six
        correct answers, and the good reaction for fewer than three errors. */
    function Completion(stamp: Stamp): (r: Option<GameResult>)
      reads this
      ensures r.Some? <==> matches == PairCount
      ensures r.Some? ==>
                r.value.gameType == MemoryLabel && r.value.score == MemoryScore(errors)
                && r.value.errors == errors && r.value.details.correctAnswers == PairCount
                && r.value.details.incorrectAnswers == errors
                && r.value.details.reactions == (if errors < 3 then ["Excelente memória"] else ["Precisa treinar mais"])
                && r.value.details.patterns == ["Memória visual", "Concentração"]
                && r.value.timeSpent == RoundDiv(stamp.now - startTime, 1000)
    {
      if matches != PairCount then None
      else
        Some(GameResult(stamp.id, MemoryLabel, MemoryScore(errors), errors,
                        RoundDiv(stamp.now - startTime, 1000), stamp.now,
                        Details(matches, errors, ["Memória visual", "Concentração"],
                                if errors < 3 then ["Excelente memória"] else ["Precisa treinar mais"])))
    }
  }

  /** Marking two distinct cards with the same icon matched closes their
      pair: no other card carries that icon. */
  lemma PairClosed(before: seq<Card>, after: seq<Card>, k1: int, k2: int)
    requires |before| == DeckSize && 0 <= k1 < DeckSize && 0 <= k2 < DeckSize && k1 != k2
    requires forall i :: 0 <= i < DeckSize ==> 0 <= before[i].id < DeckSize && before[i].iconIndex == before[i].id / 2
    requires forall i, j :: 0 <= i < j < DeckSize ==> before[i].id != before[j].id
    requires forall i, j :: 0 <= i < DeckSize && 0 <= j < DeckSize && before[i].iconIndex == before[j].iconIndex ==>
               before[i].isMatched == before[j].isMatched
    requires before[k1].iconIndex == before[k2].iconIndex
    requires after == before[k1 := before[k1].(isMatched := true)][k2 := before[k2].(isMatched := true)]
    ensures forall i, j :: 0 <= i < DeckSize && 0 <= j < DeckSize && after[i].iconIndex == after[j].iconIndex ==>
              after[i].isMatched == after[j].isMatched
  {
    forall i | 0 <= i < DeckSize && before[i].iconIndex == before[k1].iconIndex
      ensures i == k1 || i == k2
    {
      var c := before[k1].iconIndex;
      assert before[i].id == 2 * c || before[i].id == 2 * c + 1;
      assert before[k1].id == 2 * c || before[k1].id == 2 * c + 1;
      assert before[k2].id == 2 * c || before[k2].id == 2 * c + 1;
      assert k1 < k2 ==> before[k1].id != before[k2].id;
      assert k2 < k1 ==> before[k2].id != before[k1].id;
    }
  }
}
