/**
 * The memory-pairs game: sixteen cards, two per icon, dealt in shuffled
 * order; the player flips two at a time, a matching pair stays face-up and
 * scores, a mismatch counts an error and both cards turn back; the game ends
 * when all eight pairs are found or the sixty-second timer runs out.
 * The shuffle is a parameter (any permutation of the pairs), the one-second
 * timer and the one-second mismatch delay are discrete events.
 */
module FocusChallengeGame {

  /** Seconds on the clock at the start of a game. */
  const GameDuration: nat := 60

  /** `ICONS.length`: the number of distinct icons, hence of pairs. */
  const IconCount: nat := 8

  datatype GameState = Idle | Playing | Results

  /** One card: `icon` is the index of its icon in the icon list. */
  datatype Card = Card(id: nat, icon: nat, isFlipped: bool, isMatched: bool)

  /** The unshuffled pairs: cards `2k` and `2k + 1` carry icon `k`, all face-down and unmatched. */
  function CardPairs(): (d: seq<Card>)
    ensures |d| == 2 * IconCount
  {
    seq(2 * IconCount, i requires 0 <= i < 2 * IconCount => Card(i, i / 2, false, false))
  }

  /** `generateCards`: a shuffle of the pairs, that is, any permutation of them. */
  ghost predicate IsDealtDeck(d: seq<Card>) {
    multiset(d) == multiset(CardPairs())
  }

  /** Sixteen cards with distinct ids below sixteen, each showing icon `id / 2`. */
  ghost predicate DeckLayout(cards: seq<Card>) {
    && |cards| == 2 * IconCount
    && (forall i :: 0 <= i < |cards| ==> cards[i].id < 2 * IconCount && cards[i].icon == cards[i].id / 2)
    && (forall i, j :: 0 <= i < j < |cards| ==> cards[i].id != cards[j].id)
  }

  lemma {:induction false} CountOfDistinct(s: seq<Card>, x: Card)
    requires forall i, j :: 0 <= i < j < |s| ==> s[i] != s[j]
    ensures multiset(s)[x] <= 1
    decreases |s|
  {
    if |s| > 0 {
      assert s == [s[0]] + s[1..];
      CountOfDistinct(s[1..], x);
      if x == s[0] {
        assert x !in s[1..];
      }
    }
  }

  lemma CountOfRepeated(s: seq<Card>, i: nat, j: nat)
    requires i < j < |s| && s[i] == s[j]
    ensures multiset(s)[s[i]] >= 2
  {
    assert s == s[..j] + s[j..];
    assert s[i] in s[..j];
    assert s[j] == s[j..][0];
  }

  /**
   * A dealt deck is sixteen face-down, unmatched cards with ids 0 to 15,
   * each present once, showing icon `id / 2`; so every icon is on exactly
   * two cards.
   */
  lemma DealtDeckShape(d: seq<Card>)
    requires IsDealtDeck(d)
    ensures DeckLayout(d)
    ensures forall i :: 0 <= i < |d| ==> !d[i].isFlipped && !d[i].isMatched
    ensures forall k :: 0 <= k < |CardPairs()| ==> CardPairs()[k] in d
    ensures forall c :: 0 <= c < IconCount ==> |CardsWithIcon(d, c)| == 2
  {
    DealtCardsArePairs(d);
    DealtIdsDistinct(d);
    IconsOnTwoCards(d);
  }

  /** The cards of a dealt deck are the pairs' cards, sixteen of them, and every pair card is dealt. */
  lemma DealtCardsArePairs(d: seq<Card>)
    requires IsDealtDeck(d)
    ensures |d| == 2 * IconCount
    ensures forall i :: 0 <= i < |d| ==> d[i] in CardPairs()
    ensures forall k :: 0 <= k < |CardPairs()| ==> CardPairs()[k] in d
  {
    var p := CardPairs();
    assert |d| == |multiset(d)| == |multiset(p)| == |p|;
    forall i | 0 <= i < |d| ensures d[i] in p {
      assert d[i] in multiset(d);
    }
    forall k | 0 <= k < |p| ensures p[k] in d {
      assert p[k] in multiset(d);
    }
  }

  /** No card is dealt twice, so the ids of a dealt deck are distinct. */
  lemma DealtIdsDistinct(d: seq<Card>)
    requires IsDealtDeck(d)
    requires forall i :: 0 <= i < |d| ==> d[i] in CardPairs()
    ensures forall i, j :: 0 <= i < j < |d| ==> d[i].id != d[j].id
  {
    var p := CardPairs();
    forall i, j | 0 <= i < j < |d| ensures d[i].id != d[j].id {
      if d[i].id == d[j].id {
        assert d[i] == d[j];
        CountOfRepeated(d, i, j);
        CountOfDistinct(p, d[i]);
      }
    }
  }

  /** In a deck laid out as the pairs, with every pair card present, each icon is on exactly two cards. */
  lemma IconsOnTwoCards(d: seq<Card>)
    requires |d| == 2 * IconCount
    requires forall i :: 0 <= i < |d| ==> d[i] in CardPairs()
    requires forall i, j :: 0 <= i < j < |d| ==> d[i].id != d[j].id
    requires forall k :: 0 <= k < |CardPairs()| ==> CardPairs()[k] in d
    ensures forall c :: 0 <= c < IconCount ==> |CardsWithIcon(d, c)| == 2
  {
    var p := CardPairs();
    assert DeckLayout(d);
    forall c | 0 <= c < IconCount ensures |CardsWithIcon(d, c)| == 2 {
      assert p[2 * c] in d && p[2 * c + 1] in d;
      var i :| 0 <= i < |d| && d[i] == p[2 * c];
      var j :| 0 <= j < |d| && d[j] == p[2 * c + 1];
      assert i != j by { assert p[2 * c].id != p[2 * c + 1].id; }
      forall x | x in CardsWithIcon(d, c) ensures x == i || x == j {
        PairIsWhole(d, i, j, x);
      }
      assert CardsWithIcon(d, c) == {i, j};
    }
  }

  /** The places of the cards showing icon `c`. */
  function CardsWithIcon(d: seq<Card>, c: nat): set<nat>
  {
    set i | 0 <= i < |d| && d[i].icon == c
  }

  /** The icons of the matched cards. */
  function MatchedIcons(cards: seq<Card>): set<nat>
  {
    set i | 0 <= i < |cards| && cards[i].isMatched :: cards[i].icon
  }

  /** The indices of the icon list. */
  const AllIcons: set<nat> := {0, 1, 2, 3, 4, 5, 6, 7}

  /** No more icons can be matched than there are icons. */
  lemma MatchedIconsBound(cards: seq<Card>)
    requires DeckLayout(cards)
    ensures |MatchedIcons(cards)| <= IconCount
  {
    forall x | x in MatchedIcons(cards) ensures x in AllIcons {
      var i :| 0 <= i < |cards| && cards[i].isMatched && cards[i].icon == x;
    }
    assert |AllIcons| == IconCount;
    SubsetSize(MatchedIcons(cards), AllIcons);
  }

  lemma {:induction false} SubsetSize(a: set<nat>, b: set<nat>)
    requires a <= b
    ensures |a| <= |b|
    decreases |a|
  {
    if a != {} {
      var x :| x in a;
      SubsetSize(a - {x}, b - {x});
    }
  }

  /** The cards after a match on `icon`: every card with that icon is marked matched. */
  function MarkMatched(cards: seq<Card>, icon: nat): (r: seq<Card>)
    ensures |r| == |cards|
    ensures forall i :: 0 <= i < |r| ==>
      && r[i].id == cards[i].id && r[i].icon == cards[i].icon
      && r[i].isFlipped == cards[i].isFlipped
      && r[i].isMatched == (cards[i].isMatched || cards[i].icon == icon)
  {
    seq(|cards|, i requires 0 <= i < |cards| =>
      if cards[i].icon == icon then cards[i].(isMatched := true) else cards[i])
  }

  /** The cards after a mismatch: exactly the cards at `a` and `b` turn face-down. */
  function FlipDown(cards: seq<Card>, a: nat, b: nat): (r: seq<Card>)
    ensures |r| == |cards|
    ensures forall i :: 0 <= i < |r| ==>
      && r[i].id == cards[i].id && r[i].icon == cards[i].icon
      && r[i].isMatched == cards[i].isMatched
      && r[i].isFlipped == (cards[i].isFlipped && i != a && i != b)
  {
    seq(|cards|, i requires 0 <= i < |cards| =>
      if i == a || i == b then cards[i].(isFlipped := false) else cards[i])
  }

  /**
   * The bookkeeping of the face-up cards: at most two waiting, distinct and
   * in range; a card is face-up and unmatched exactly when it is waiting;
   * matched cards stay face-up; the two cards of a pair are matched together.
   */
  ghost predicate FlipsConsistent(cards: seq<Card>, flipped: seq<nat>) {
    && |flipped| <= 2
    && (forall k :: 0 <= k < |flipped| ==> flipped[k] < |cards|)
    && (|flipped| == 2 ==> flipped[0] != flipped[1])
    && (forall i :: 0 <= i < |cards| ==> (cards[i].isFlipped && !cards[i].isMatched <==> i in flipped))
    && (forall i :: 0 <= i < |cards| && cards[i].isMatched ==> cards[i].isFlipped)
    && (forall i, j :: 0 <= i < |cards| && 0 <= j < |cards| && cards[i].icon == cards[j].icon ==>
          cards[i].isMatched == cards[j].isMatched)
  }

  /**
   * The invariant of a game: before the first deal nothing has happened;
   * afterwards the layout of the dealt deck is kept, the face-up cards are
   * consistent, the score is the number of matched pairs, and a game in
   * play has pairs left to find.
   */
  ghost predicate GameInvariant(gameState: GameState, cards: seq<Card>, flipped: seq<nat>, timeLeft: nat, score: nat) {
    && (cards == [] ==> gameState == Idle && timeLeft == GameDuration)
    && (cards != [] ==> DeckLayout(cards))
    && FlipsConsistent(cards, flipped)
    && score == |MatchedIcons(cards)|
    && score <= IconCount
    && (gameState == Playing ==> score < IconCount)
  }

  /** A match keeps the invariant, with one more point and the game ended when it was the last pair. */
  lemma MatchStep(gameState: GameState, cards: seq<Card>, first: nat, second: nat, timeLeft: nat, score: nat)
    requires GameInvariant(gameState, cards, [first, second], timeLeft, score)
    requires cards[first].icon == cards[second].icon
    ensures GameInvariant(if score + 1 == IconCount then Results else gameState,
                          MarkMatched(cards, cards[first].icon), [], timeLeft, score + 1)
  {
    var marked := MarkMatched(cards, cards[first].icon);
    MatchKeepsFlips(cards, first, second);
    MatchAddsIcon(cards, first, second);
    MatchedIconsBound(marked);
  }

  /** A mismatch keeps the invariant. */
  lemma MismatchStep(gameState: GameState, cards: seq<Card>, first: nat, second: nat, timeLeft: nat, score: nat)
    requires GameInvariant(gameState, cards, [first, second], timeLeft, score)
    ensures GameInvariant(gameState, FlipDown(cards, first, second), [], timeLeft, score)
  {
    MismatchPreservesLayout(cards, first, second);
  }

  class FocusGame {
    var gameState: GameState
    var cards: seq<Card>
    /** Indices of the face-up cards waiting to be compared, in click order. */
    var flippedCards: seq<nat>
    var timeLeft: nat
    var score: nat
    var errors: nat

    ghost predicate Valid()
      reads this
    {
      GameInvariant(gameState, cards, flippedCards, timeLeft, score)
    }

    constructor ()
      ensures Valid()
      ensures gameState == Idle && cards == [] && flippedCards == []
      ensures timeLeft == GameDuration && score == 0 && errors == 0
    {
      gameState := Idle;
      cards := [];
      flippedCards := [];
      timeLeft := GameDuration;
      score := 0;
      errors := 0;
    }

    /** `startGame`, dealing the shuffled deck `deck`. */
    method StartGame(deck: seq<Card>)
      requires Valid() && IsDealtDeck(deck)
      modifies this
      ensures Valid()
      ensures cards == deck && gameState == Playing && flippedCards == []
      ensures timeLeft == GameDuration && score == 0 && errors == 0
    {
      DealtDeckShape(deck);
      cards := deck;
      gameState := Playing;
      timeLeft := GameDuration;
      score := 0;
      errors := 0;
      flippedCards := [];
      assert MatchedIcons(cards) == {};
    }

    /**
     * `handleCardClick`: ignored unless playing, fewer than two cards are
     * waiting and the card is face-down; otherwise only that card turns
     * face-up and its index joins the waiting list.
     */
    method HandleCardClick(index: nat)
      requires Valid() && index < |cards|
      modifies this
      ensures Valid() && |flippedCards| <= 2
      ensures var accepted := old(gameState) == Playing && |old(flippedCards)| < 2 && !old(cards)[index].isFlipped;
        && (accepted ==> cards == old(cards)[index := old(cards)[index].(isFlipped := true)]
                         && flippedCards == old(flippedCards) + [index])
        && (!accepted ==> cards == old(cards) && flippedCards == old(flippedCards))
      ensures gameState == old(gameState) && timeLeft == old(timeLeft)
      ensures score == old(score) && errors == old(errors)
    {
      if gameState != Playing || |flippedCards| == 2 || cards[index].isFlipped {
        return;
      }
      var before := cards;
      cards := cards[index := cards[index].(isFlipped := true)];
      flippedCards := flippedCards + [index];
      assert MatchedIcons(cards) == MatchedIcons(before) by {
        forall c | c in MatchedIcons(before) ensures c in MatchedIcons(cards) {
          var i :| 0 <= i < |before| && before[i].isMatched && before[i].icon == c;
          assert cards[i].isMatched && cards[i].icon == c;
        }
      }
    }

    /**
     * The effect that compares two waiting cards. A pair with the same icon
     * adds one to the score, marks every card with that icon matched, clears
     * the waiting list and ends the game when all pairs are found. Different
     * icons add one error and, one second later (collapsed here), turn
     * exactly those two cards face-down and clear the waiting list.
     */
    method ResolvePair()
      requires Valid()
      modifies this
      ensures Valid()
      ensures |old(flippedCards)| != 2 ==>
        cards == old(cards) && flippedCards == old(flippedCards) && score == old(score)
        && errors == old(errors) && gameState == old(gameState)
      ensures |old(flippedCards)| == 2 ==> flippedCards == []
      ensures |old(flippedCards)| == 2 && old(cards)[old(flippedCards)[0]].icon == old(cards)[old(flippedCards)[1]].icon ==>
        && score == old(score) + 1 && errors == old(errors)
        && cards == MarkMatched(old(cards), old(cards)[old(flippedCards)[0]].icon)
        && gameState == (if old(score) + 1 == IconCount then Results else old(gameState))
      ensures |old(flippedCards)| == 2 && old(cards)[old(flippedCards)[0]].icon != old(cards)[old(flippedCards)[1]].icon ==>
        && errors == old(errors) + 1 && score == old(score)
        && cards == FlipDown(old(cards), old(flippedCards)[0], old(flippedCards)[1])
        && gameState == old(gameState)
      ensures timeLeft == old(timeLeft)
    {
      if |flippedCards| != 2 {
        return;
      }
      var first, second := flippedCards[0], flippedCards[1];
      if cards[first].icon == cards[second].icon {
        ApplyMatch(first, second);
      } else {
        ApplyMismatch(first, second);
      }
    }

    /** The match branch of `ResolvePair`. */
    method ApplyMatch(first: nat, second: nat)
      requires Valid() && flippedCards == [first, second]
      requires cards[first].icon == cards[second].icon
      modifies this
      ensures Valid() && flippedCards == []
      ensures score == old(score) + 1 && errors == old(errors)
      ensures cards == MarkMatched(old(cards), old(cards)[first].icon)
      ensures gameState == (if old(score) + 1 == IconCount then Results else old(gameState))
      ensures timeLeft == old(timeLeft)
    {
      MatchStep(gameState, cards, first, second, timeLeft, score);
      if score + 1 == IconCount {
        gameState := Results;
      }
      cards, flippedCards, score := MarkMatched(cards, cards[first].icon), [], score + 1;
    }

    /** The mismatch branch of `ResolvePair`, with the one-second delay collapsed. */
    method ApplyMismatch(first: nat, second: nat)
      requires Valid() && flippedCards == [first, second]
      modifies this
      ensures Valid() && flippedCards == []
      ensures errors == old(errors) + 1 && score == old(score)
      ensures cards == FlipDown(old(cards), first, second)
      ensures gameState == old(gameState) && timeLeft == old(timeLeft)
    {
      MismatchStep(gameState, cards, first, second, timeLeft, score);
      errors := errors + 1;
      cards, flippedCards := FlipDown(cards, first, second), [];
    }

    /**
     * One second of the clock: while playing with time left the clock drops
     * by one; then the timer effect ends the game once the clock reads zero.
     */
    method Tick()
      requires Valid()
      modifies this
      ensures Valid()
      ensures timeLeft == (if old(gameState) == Playing && old(timeLeft) > 0 then old(timeLeft) - 1 else old(timeLeft))
      ensures gameState == (if timeLeft == 0 then Results else old(gameState))
      ensures cards == old(cards) && flippedCards == old(flippedCards)
      ensures score == old(score) && errors == old(errors)
    {
      if gameState == Playing && timeLeft > 0 {
        timeLeft := timeLeft - 1;
      }
      TimerEffect();
    }

    /** The part of the timer effect that runs whenever the state or the clock changes: a clock at zero shows the results. */
    method TimerEffect()
      requires Valid()
      modifies this
      ensures Valid()
      ensures gameState == (if timeLeft == 0 then Results else old(gameState))
      ensures cards == old(cards) && flippedCards == old(flippedCards) && timeLeft == old(timeLeft)
      ensures score == old(score) && errors == old(errors)
    {
      if timeLeft == 0 {
        gameState := Results;
      }
    }

    /**
     * `resetGame` as written: it sets the state to idle and nothing else, so
     * after a game that ran out of time the timer effect, seeing the clock
     * still at zero, sends the game straight back to the results.
     */
    method ResetGameAsWritten()
      requires Valid()
      modifies this
      ensures Valid()
      ensures gameState == (if timeLeft == 0 then Results else Idle)
      ensures cards == old(cards) && flippedCards == old(flippedCards) && timeLeft == old(timeLeft)
      ensures score == old(score) && errors == old(errors)
    {
      gameState := Idle;
      TimerEffect();
    }

    /** `resetGame` as intended: the game returns to the start screen, with the clock restored so the timer effect leaves it there. */
    method ResetGame()
      requires Valid()
      modifies this
      ensures Valid()
      ensures gameState == Idle && timeLeft == GameDuration
      ensures cards == old(cards) && flippedCards == old(flippedCards)
      ensures score == old(score) && errors == old(errors)
    {
      gameState := Idle;
      timeLeft := GameDuration;
      TimerEffect();
    }
  }

  /** Two cards of a dealt layout showing the same icon, at different places, are the icon's only two cards. */
  lemma PairIsWhole(cards: seq<Card>, first: nat, second: nat, i: nat)
    requires DeckLayout(cards)
    requires first < |cards| && second < |cards| && i < |cards| && first != second
    requires cards[first].icon == cards[second].icon == cards[i].icon
    ensures i == first || i == second
  {
  }

  /** A match on the waiting pair keeps the layout and leaves no unmatched card face-up. */
  lemma MatchKeepsFlips(cards: seq<Card>, first: nat, second: nat)
    requires DeckLayout(cards) && FlipsConsistent(cards, [first, second])
    requires cards[first].icon == cards[second].icon
    ensures DeckLayout(MarkMatched(cards, cards[first].icon))
    ensures FlipsConsistent(MarkMatched(cards, cards[first].icon), [])
  {
    var c := cards[first].icon;
    assert first in [first, second] && second in [first, second];
    forall i | 0 <= i < |cards| && cards[i].icon == c ensures cards[i].isFlipped {
      PairIsWhole(cards, first, second, i);
    }
  }

  /** A match on the waiting pair adds its icon, not matched before, to the matched icons. */
  lemma MatchAddsIcon(cards: seq<Card>, first: nat, second: nat)
    requires DeckLayout(cards) && FlipsConsistent(cards, [first, second])
    requires cards[first].icon == cards[second].icon
    ensures MatchedIcons(MarkMatched(cards, cards[first].icon)) == MatchedIcons(cards) + {cards[first].icon}
    ensures |MatchedIcons(MarkMatched(cards, cards[first].icon))| == |MatchedIcons(cards)| + 1
  {
    var c := cards[first].icon;
    var r := MarkMatched(cards, c);
    assert first in [first, second];
    assert !cards[first].isMatched;
    assert c !in MatchedIcons(cards);
    forall x | x in MatchedIcons(cards) + {c} ensures x in MatchedIcons(r) {
      if x == c {
        assert r[first].isMatched && r[first].icon == c;
      } else {
        var i :| 0 <= i < |cards| && cards[i].isMatched && cards[i].icon == x;
        assert r[i].isMatched && r[i].icon == x;
      }
    }
  }

  /** A mismatch keeps the layout and the matched icons, and leaves no unmatched card face-up. */
  lemma MismatchPreservesLayout(cards: seq<Card>, first: nat, second: nat)
    requires DeckLayout(cards) && FlipsConsistent(cards, [first, second])
    ensures var r := FlipDown(cards, first, second);
      && DeckLayout(r) && FlipsConsistent(r, [])
      && MatchedIcons(r) == MatchedIcons(cards)
  {
    var r := FlipDown(cards, first, second);
    assert first in [first, second] && second in [first, second];
    forall c | c in MatchedIcons(cards) ensures c in MatchedIcons(r) {
      var i :| 0 <= i < |cards| && cards[i].isMatched && cards[i].icon == c;
      assert r[i].isMatched && r[i].icon == c;
    }
  }

  /**
   * The discrepancy of `ResetGameAsWritten`, on a concrete game: deal the
   * unshuffled deck, let all sixty seconds run out, press "Play Again", and
   * the game is back on the results screen rather than the start screen.
   */
  method TimeoutThenPlayAgain() returns (state: GameState, fixedState: GameState)
    ensures state == Results
    ensures fixedState == Idle
  {
    var g := new FocusGame();
    assert IsDealtDeck(CardPairs());
    g.StartGame(CardPairs());
    var seconds := 0;
    while seconds < GameDuration
      invariant 0 <= seconds <= GameDuration
      invariant g.Valid()
      invariant g.timeLeft == GameDuration - seconds
      invariant g.gameState == (if seconds == GameDuration then Results else Playing)
    {
      g.Tick();
      seconds := seconds + 1;
    }
    g.ResetGameAsWritten();
    state := g.gameState;
    g.ResetGame();
    fixedState := g.gameState;
  }
}
