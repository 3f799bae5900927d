/** A hand of cards with its bet and flags, and its blackjack valuation
    (backend/engine/hand.py). */
module Hands {
  import opened Cards

  /** The sum of the point values, every ace counted 11. */
  function RawTotal(cards: seq<Card>): int
  {
    if cards == [] then 0 else RawTotal(cards[..|cards| - 1]) + PointValue(cards[|cards| - 1].rank)
  }

  function AceCount(cards: seq<Card>): (n: nat)
    ensures n <= |cards|
  {
    if cards == [] then 0
    else AceCount(cards[..|cards| - 1]) + (if cards[|cards| - 1].rank == Ace then 1 else 0)
  }

  /** The total with every ace counted 1. */
  function HardTotal(cards: seq<Card>): int
  {
    RawTotal(cards) - 10 * AceCount(cards)
  }

  /** How many aces the valuation demotes from 11 to 1: as few as bring the total to 21
      or below, and at most all of them. */
  function Demotions(raw: int, aces: nat): nat
  {
    if raw <= 21 then 0 else if (raw - 12) / 10 < aces then (raw - 12) / 10 else aces
  }

  /** The best total of a hand: aces are demoted one at a time while the total exceeds 21. */
  function HandValue(cards: seq<Card>): (v: int)
    ensures HardTotal(cards) <= v <= RawTotal(cards)
    ensures (RawTotal(cards) - v) % 10 == 0
    ensures RawTotal(cards) <= 21 ==> v == RawTotal(cards)
    ensures v < RawTotal(cards) ==> v + 10 > 21
    ensures v > 21 ==> v == HardTotal(cards)
  {
    RawTotal(cards) - 10 * Demotions(RawTotal(cards), AceCount(cards))
  }

  /** Soft as the code has it: some ace, and the total with every ace counted 11 is at most 21. */
  predicate IsSoft(cards: seq<Card>): (soft: bool)
    ensures soft ==> 11 <= HandValue(cards) == RawTotal(cards) <= 21
  {
    TotalsBound(cards);
    AceCount(cards) > 0 && RawTotal(cards) <= 21
  }

  /** Busted: over 21 even with every ace counted 1, which takes at least three cards. */
  predicate IsBusted(cards: seq<Card>): (busted: bool)
    ensures busted <==> HardTotal(cards) > 21
    ensures busted ==> |cards| >= 3
  {
    if |cards| == 2 then TwoCardTotals(cards); HandValue(cards) > 21
    else if |cards| == 1 then
      assert cards[..0] == [] && RawTotal(cards) == PointValue(cards[0].rank);
      HandValue(cards) > 21
    else HandValue(cards) > 21
  }

  /** A natural: two cards worth 21 on a hand that did not come from a split, that is, an
      ace and a ten-valued card. */
  predicate IsBlackjack(cards: seq<Card>, isSplitHand: bool): (natural: bool)
    ensures natural <==>
      && |cards| == 2 && !isSplitHand
      && ((cards[0].rank == Ace && PointValue(cards[1].rank) == 10) ||
          (cards[1].rank == Ace && PointValue(cards[0].rank) == 10))
  {
    if |cards| == 2 then TwoCardTwentyOne(cards); HandValue(cards) == 21 && !isSplitHand
    else false
  }

  /** Two cards of equal point value, so a ten and a king form a pair. */
  predicate IsPair(cards: seq<Card>): (pair: bool)
    ensures pair ==>
      && |cards| == 2
      && (cards[0].rank == cards[1].rank || (PointValue(cards[0].rank) == 10 && PointValue(cards[1].rank) == 10))
  {
    |cards| == 2 && PointValue(cards[0].rank) == PointValue(cards[1].rank)
  }

  lemma TwoCardTotals(cards: seq<Card>)
    requires |cards| == 2
    ensures RawTotal(cards) == PointValue(cards[0].rank) + PointValue(cards[1].rank)
    ensures AceCount(cards) == (if cards[0].rank == Ace then 1 else 0) + (if cards[1].rank == Ace then 1 else 0)
  {
    var first := cards[..1];
    assert first[..0] == [];
    assert RawTotal(first) == PointValue(cards[0].rank);
    assert AceCount(first) == if cards[0].rank == Ace then 1 else 0;
  }

  /** Every card adds at least 1 to the total with all aces counted 1, and aces are worth 11. */
  lemma {:induction false} TotalsBound(cards: seq<Card>)
    ensures HardTotal(cards) >= |cards|
    ensures RawTotal(cards) >= 11 * AceCount(cards) + 2 * (|cards| - AceCount(cards))
  {
    if cards != [] {
      TotalsBound(cards[..|cards| - 1]);
    }
  }

  lemma AppendTotals(cards: seq<Card>, c: Card)
    ensures RawTotal(cards + [c]) == RawTotal(cards) + PointValue(c.rank)
    ensures AceCount(cards + [c]) == AceCount(cards) + (if c.rank == Ace then 1 else 0)
    ensures HardTotal(cards + [c]) >= HardTotal(cards) + 1
  {
    assert (cards + [c])[..|cards|] == cards;
  }

  /** A soft hand is valued at its all-aces-as-11 total and is never a pair. */
  lemma SoftHands(cards: seq<Card>)
    requires IsSoft(cards)
    ensures HandValue(cards) == RawTotal(cards) >= 11
    ensures !IsPair(cards)
  {
    TotalsBound(cards);
    if |cards| == 2 {
      TwoCardTotals(cards);
    }
  }

  /** The code's softness is narrower than "an ace still counts 11": A,A is valued 12 and
      A,A,5 is valued 17 with one ace counted 11, yet neither is soft. */
  lemma MultiAceHandsAreNotSoft()
    ensures var aa := [Card(Ace, Hearts), Card(Ace, Spades)];
      HandValue(aa) == 12 && Demotions(RawTotal(aa), AceCount(aa)) < AceCount(aa) && !IsSoft(aa)
    ensures var aa5 := [Card(Ace, Hearts), Card(Ace, Spades), Card(Five, Clubs)];
      HandValue(aa5) == 17 && Demotions(RawTotal(aa5), AceCount(aa5)) < AceCount(aa5) && !IsSoft(aa5)
  {
    var aa := [Card(Ace, Hearts), Card(Ace, Spades)];
    var aa5 := aa + [Card(Five, Clubs)];
    TwoCardTotals(aa);
    AppendTotals(aa, Card(Five, Clubs));
    assert aa5 == [Card(Ace, Hearts), Card(Ace, Spades), Card(Five, Clubs)];
    assert RawTotal(aa) == 22 && AceCount(aa) == 2;
    assert RawTotal(aa5) == 27 && AceCount(aa5) == 2;
  }

  /** Two cards are worth 21 exactly when one is an ace and the other is worth ten. */
  lemma TwoCardTwentyOne(cards: seq<Card>)
    requires |cards| == 2
    ensures HandValue(cards) == 21 <==>
      (cards[0].rank == Ace && PointValue(cards[1].rank) == 10) ||
      (cards[1].rank == Ace && PointValue(cards[0].rank) == 10)
  {
    TwoCardTotals(cards);
  }

  /** A pair is worth twice its card's value, except a pair of aces, which is worth 12. */
  lemma PairValue(cards: seq<Card>)
    requires IsPair(cards)
    ensures HandValue(cards) == if cards[0].rank == Ace then 12 else 2 * PointValue(cards[0].rank)
    ensures !IsSoft(cards)
  {
    TwoCardTotals(cards);
  }

  /** A snapshot of a hand: what a strategy sees and what a round reports. */
  datatype HandState = HandState(cards: seq<Card>, bet: real, isSplitHand: bool, isDoubled: bool, isSurrendered: bool)

  class Hand {
    var cards: seq<Card>
    var bet: real
    var isSplitHand: bool
    var isDoubled: bool
    var isSurrendered: bool

    constructor ()
      ensures cards == [] && bet == 0.0
      ensures !isSplitHand && !isDoubled && !isSurrendered
    {
      cards := [];
      bet := 0.0;
      isSplitHand := false;
      isDoubled := false;
      isSurrendered := false;
    }

    function State(): HandState
      reads this
    {
      HandState(cards, bet, isSplitHand, isDoubled, isSurrendered)
    }

    method AddCard(card: Card)
      modifies this
      ensures cards == old(cards) + [card]
      ensures bet == old(bet) && isSplitHand == old(isSplitHand)
      ensures isDoubled == old(isDoubled) && isSurrendered == old(isSurrendered)
    {
      cards := cards + [card];
    }

    /** The demotion loop of the source, proved to compute the best total. */
    method Value() returns (v: int)
      ensures v == HandValue(cards)
    {
      var raw := RawTotal(cards);
      var aceCount := AceCount(cards);
      var total := raw;
      var aces := aceCount;
      while total > 21 && aces > 0
        invariant 0 <= aces <= aceCount
        invariant total == raw - 10 * (aceCount - aces)
        invariant aceCount - aces <= Demotions(raw, aceCount)
      {
        total := total - 10;
        aces := aces - 1;
      }
      v := total;
    }
  }
}
