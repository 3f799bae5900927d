/** Cards, their point values and the multi-deck shoe with penetration-based
    reshuffling (backend/engine/card.py). */
module Cards {
  import opened Numbers

  datatype Suit = Hearts | Diamonds | Clubs | Spades

  datatype Rank = Two | Three | Four | Five | Six | Seven | Eight | Nine | Ten | Jack | Queen | King | Ace

  /** The blackjack point value a rank carries; an ace counts 11 until a hand demotes it. */
  function PointValue(r: Rank): (v: int)
    ensures 2 <= v <= 11
    ensures v == 11 <==> r == Ace
    ensures v == 10 <==> r in {Ten, Jack, Queen, King}
  {
    match r
    case Two => 2
    case Three => 3
    case Four => 4
    case Five => 5
    case Six => 6
    case Seven => 7
    case Eight => 8
    case Nine => 9
    case Ten => 10
    case Jack => 10
    case Queen => 10
    case King => 10
    case Ace => 11
  }

  /** A card is an immutable (rank, suit) pair; the suit never affects a rule. */
  datatype Card = Card(rank: Rank, suit: Suit)

  /** Position of a suit and a rank in the enumeration order of their enums, which fixes
      the order a fresh shoe is built in. */
  function SuitAt(i: int): Suit
    requires 0 <= i < 4
  {
    if i == 0 then Hearts else if i == 1 then Diamonds else if i == 2 then Clubs else Spades
  }

  function SuitIndex(s: Suit): (i: int)
    ensures 0 <= i < 4 && SuitAt(i) == s
  {
    match s
    case Hearts => 0
    case Diamonds => 1
    case Clubs => 2
    case Spades => 3
  }

  function RankAt(i: int): Rank
    requires 0 <= i < 13
  {
    match i
    case 0 => Two
    case 1 => Three
    case 2 => Four
    case 3 => Five
    case 4 => Six
    case 5 => Seven
    case 6 => Eight
    case 7 => Nine
    case 8 => Ten
    case 9 => Jack
    case 10 => Queen
    case 11 => King
    case _ => Ace
  }

  function RankIndex(r: Rank): (i: int)
    ensures 0 <= i < 13 && RankAt(i) == r
  {
    match r
    case Two => 0
    case Three => 1
    case Four => 2
    case Five => 3
    case Six => 4
    case Seven => 5
    case Eight => 6
    case Nine => 7
    case Ten => 8
    case Jack => 9
    case Queen => 10
    case King => 11
    case Ace => 12
  }

  /** The card at position `k` of an unshuffled shoe: deck after deck, each deck suit
      after suit, each suit in rank order. */
  function LayoutAt(k: nat): Card
  {
    Card(RankAt(k % 13), SuitAt((k / 13) % 4))
  }

  /** The unshuffled contents of a shoe of `decks` decks. */
  function FullShoe(decks: int): (shoe: seq<Card>)
    ensures |shoe| == 52 * Max(decks, 0)
  {
    seq(52 * Max(decks, 0), k requires 0 <= k => LayoutAt(k))
  }

  /** Python's `int` of a number: its integer part, rounded toward zero. */
  function Truncate(x: real): (t: int)
    ensures 0.0 <= x ==> t as real <= x < t as real + 1.0
    ensures x < 0.0 ==> t as real - 1.0 < x <= t as real
  {
    if x >= 0.0 then x.Floor else -((-x).Floor)
  }

  /** `int(len(cards) * penetration)` for a shoe of `size` cards. */
  function CutCardOf(size: int, penetration: real): int
  {
    Truncate(size as real * penetration)
  }

  /** The cut card right after a shuffle, when the shoe holds all 52 * numDecks cards. */
  function CutCard(numDecks: int, penetration: real): int
  {
    CutCardOf(52 * numDecks, penetration)
  }

  /** The cut card is non-negative exactly when the penetration is above
      -1 / (52 * numDecks), and at most the shoe size for a penetration of at most 1. */
  lemma CutCardRange(numDecks: int, penetration: real)
    requires numDecks >= 1
    ensures 0 <= CutCard(numDecks, penetration) <==> -1.0 < (52 * numDecks) as real * penetration
    ensures penetration <= 1.0 ==> CutCard(numDecks, penetration) <= 52 * numDecks
  {
    var x := (52 * numDecks) as real * penetration;
    assert CutCard(numDecks, penetration) == CutCardOf(52 * numDecks, penetration) == Truncate(x);
    TruncateBounds(x);
    if penetration <= 1.0 {
      CutCardOfAtMost(52 * numDecks, penetration);
    }
  }

  /** A cut card taken at a penetration of at most 1 never lies past the shoe's end. */
  lemma CutCardOfAtMost(size: int, penetration: real)
    requires 0 <= size && penetration <= 1.0
    ensures CutCardOf(size, penetration) <= size
  {
    ScaledAtMost(size as real, penetration);
    TruncateAtMost(size as real * penetration, size);
  }

  lemma TruncateAtMost(x: real, k: int)
    requires x <= k as real && 0 <= k
    ensures Truncate(x) <= k
  {
  }

  lemma TruncateBounds(x: real)
    ensures 0 <= Truncate(x) <==> -1.0 < x
  {
    var t := Truncate(x);
    if x >= 0.0 {
      assert t as real > -1.0;
    } else if x > -1.0 {
      assert t as real > -1.0;
    } else {
      assert t as real < 0.0;
    }
  }

  lemma ScaledAtMost(total: real, fraction: real)
    requires 0.0 <= total && fraction <= 1.0
    ensures total * fraction <= total
  {
    assert total * (1.0 - fraction) >= 0.0;
  }

  /** The card built at deck `d`, suit position `s`, rank position `r` sits at
      position 52 * d + 13 * s + r. */
  lemma LayoutPosition(d: nat, s: int, r: int)
    requires 0 <= s < 4 && 0 <= r < 13
    ensures LayoutAt(52 * d + 13 * s + r) == Card(RankAt(r), SuitAt(s))
  {
    var k := 52 * d + 13 * s + r;
    assert k == 13 * (4 * d + s) + r;
    assert k % 13 == r && k / 13 == 4 * d + s;
    assert (4 * d + s) % 4 == s;
  }

  lemma RankRoundTrip(i: int)
    requires 0 <= i < 13
    ensures RankIndex(RankAt(i)) == i
  {
  }

  lemma SuitRoundTrip(i: int)
    requires 0 <= i < 4
    ensures SuitIndex(SuitAt(i)) == i
  {
  }

  /** Within one deck a card's rank and suit give back its position. */
  lemma LayoutIndex(k: int)
    requires 0 <= k < 52
    ensures 13 * SuitIndex(LayoutAt(k).suit) + RankIndex(LayoutAt(k).rank) == k
  {
    RankRoundTrip(k % 13);
    SuitRoundTrip(k / 13);
  }

  /** The layout repeats every 52 positions. */
  lemma LayoutPeriodic(d: nat, k: nat)
    ensures LayoutAt(52 * d + k) == LayoutAt(k)
  {
    var q := k / 13;
    assert 52 * d + k == 13 * (4 * d + q) + k % 13;
    assert (52 * d + k) / 13 == 4 * d + q;
    assert (52 * d + k) % 13 == k % 13;
    assert (4 * d + q) % 4 == q % 4;
  }

  /** Each card occurs exactly once among the first 52 positions. */
  lemma LayoutOneDeck(c: Card)
    ensures multiset(FullShoe(1))[c] == 1
  {
    var deck := FullShoe(1);
    forall i, j | 0 <= i < j < 52
      ensures deck[i] != deck[j]
    {
      LayoutIndex(i);
      LayoutIndex(j);
    }
    var k := 13 * SuitIndex(c.suit) + RankIndex(c.rank);
    LayoutPosition(0, SuitIndex(c.suit), RankIndex(c.rank));
    assert deck[k] == c;
    DistinctCount(deck, c);
  }

  lemma {:induction false} DistinctCount<T>(s: seq<T>, x: T)
    requires forall i, j :: 0 <= i < j < |s| ==> s[i] != s[j]
    ensures multiset(s)[x] == if x in s then 1 else 0
  {
    if s != [] {
      var init := s[..|s| - 1];
      DistinctCount(init, x);
      assert s == init + [s[|s| - 1]];
      if x == s[|s| - 1] {
        assert x !in init;
      }
    }
  }

  /** A shoe of `decks + 1` decks is a shoe of `decks` decks followed by one more deck. */
  lemma FullShoeStep(decks: nat)
    ensures FullShoe(decks + 1) == FullShoe(decks) + FullShoe(1)
  {
    var longer, shorter, deck := FullShoe(decks + 1), FullShoe(decks), FullShoe(1);
    forall k | 0 <= k < 52
      ensures longer[52 * decks + k] == deck[k]
    {
      LayoutPeriodic(decks, k);
    }
    assert longer == shorter + deck by {
      forall k | 0 <= k < |longer|
        ensures longer[k] == (shorter + deck)[k]
      {
        if k >= 52 * decks {
          assert longer[52 * decks + (k - 52 * decks)] == deck[k - 52 * decks];
        }
      }
    }
  }

  /** A freshly built shoe holds every (rank, suit) exactly once per deck. */
  lemma {:induction false} FullShoeCount(decks: nat, c: Card)
    ensures multiset(FullShoe(decks))[c] == decks
  {
    if decks > 0 {
      FullShoeCount(decks - 1, c);
      LayoutOneDeck(c);
      FullShoeStep(decks - 1);
    }
  }

  /** The nested loops of a shuffle: `decks` decks appended suit by suit, rank by rank. */
  method BuildDecks(decks: int) returns (built: seq<Card>)
    ensures built == FullShoe(decks)
  {
    built := [];
    if decks <= 0 {
      return;
    }
    for d := 0 to decks
      invariant built == FullShoe(d)
    {
      for s := 0 to 4
        invariant built == FullShoe(d) + FullShoe(1)[..13 * s]
      {
        for r := 0 to 13
          invariant built == FullShoe(d) + FullShoe(1)[..13 * s + r]
        {
          LayoutPosition(0, s, r);
          assert FullShoe(1)[..13 * s + r + 1] == FullShoe(1)[..13 * s + r] + [Card(RankAt(r), SuitAt(s))];
          built := built + [Card(RankAt(r), SuitAt(s))];
        }
      }
      FullShoeStep(d);
    }
  }

  /** Some reordering of `cards`; which one is left open. */
  method Permute(cards: seq<Card>) returns (permuted: seq<Card>)
    ensures multiset(permuted) == multiset(cards) && |permuted| == |cards|
  {
    assert multiset(cards) == multiset(cards);
    permuted :| multiset(permuted) == multiset(cards);
    assert |permuted| == |multiset(permuted)| == |cards|;
  }

  /** The shoe: a list of cards dealt from its end, rebuilt and permuted whenever no
      more than `cutCard` cards remain. */
  class Shoe {
    const numDecks: int
    const penetration: real
    var cards: seq<Card>
    var cutCard: int
    /** The cards dealt since the last shuffle, in dealing order. */
    ghost var dealt: seq<Card>
    /** Every card this shoe has dealt, in dealing order, and how many of them had been
        dealt when it was last shuffled. */
    ghost var drawn: seq<Card>
    ghost var shuffledAt: nat

    /** Between two shuffles the cards still in the shoe and the cards dealt make up the
        full shoe, and at most Max(1, 52 * numDecks - cutCard) cards are dealt; the cards
        dealt since the last shuffle are the last `|dealt|` of everything dealt. */
    ghost predicate Valid()
      reads this
    {
      && numDecks >= 1
      && cutCard == CutCard(numDecks, penetration) >= 0
      && multiset(cards) + multiset(dealt) == multiset(FullShoe(numDecks))
      && |dealt| <= Max(1, 52 * numDecks - cutCard)
      && shuffledAt + |dealt| == |drawn|
    }

    /** Since the previous state the shoe has only dealt and shuffled: the record of dealt
        cards was extended and the last shuffle is no earlier. */
    twostate predicate Advanced()
      reads this
    {
      && |old(drawn)| <= |drawn| && drawn[..|old(drawn)|] == old(drawn)
      && old(shuffledAt) <= shuffledAt
    }

    /** `card` is the one card dealt since the previous state: when a shuffle was due, the
        first card dealt from a freshly shuffled shoe, else the last card of the list. */
    twostate predicate DealtNext(card: Card)
      reads this
    {
      && drawn == old(drawn) + [card]
      && (old(NeedsShuffle()) ==> dealt == [card] && shuffledAt == |old(drawn)|)
      && (!old(NeedsShuffle()) ==>
           && |old(cards)| > 0
           && card == old(cards)[|old(cards)| - 1]
           && cards == old(cards)[..|old(cards)| - 1]
           && dealt == old(dealt) + [card] && shuffledAt == old(shuffledAt))
    }

    constructor (numDecks: int, penetration: real)
      requires numDecks >= 1 && CutCard(numDecks, penetration) >= 0
      ensures Valid()
      ensures this.numDecks == numDecks && this.penetration == penetration
      ensures multiset(cards) == multiset(FullShoe(numDecks)) && dealt == [] && drawn == []
    {
      this.numDecks := numDecks;
      this.penetration := penetration;
      cards := [];
      cutCard := 0;
      dealt := [];
      drawn := [];
      shuffledAt := 0;
      new;
      Shuffle();
    }

    /** Rebuilds `numDecks` decks in enumeration order, permutes them (any permutation:
        the uniformity of the random shuffle is not modelled) and recomputes the cut card. */
    method Shuffle()
      requires numDecks >= 1 && CutCard(numDecks, penetration) >= 0
      modifies this
      ensures Valid()
      ensures multiset(cards) == multiset(FullShoe(numDecks)) && |cards| == 52 * numDecks
      ensures cutCard == CutCard(numDecks, penetration) && dealt == []
      ensures drawn == old(drawn) && shuffledAt == |drawn|
    {
      var built := BuildDecks(numDecks);
      cards := Permute(built);
      assert |cards| == 52 * numDecks;
      cutCard := CutCardOf(|cards|, penetration);
      dealt := [];
      shuffledAt := |drawn|;
      assert multiset(cards) + multiset(dealt) == multiset(FullShoe(numDecks));
    }

    /** Whether the next deal reshuffles first. */
    predicate NeedsShuffle(): (needs: bool)
      reads this
      ensures cutCard >= 0 && !needs ==> cards != []
    {
      |cards| <= cutCard
    }

    /** Reshuffles exactly when `NeedsShuffle()` holds, then removes and returns the last
        card; the list is never empty at that point. */
    method Deal() returns (card: Card)
      requires Valid()
      modifies this
      ensures Valid()
      ensures cutCard == old(cutCard)
      ensures DealtNext(card) && Advanced()
    {
      assert |cards| + |dealt| == |multiset(cards) + multiset(dealt)| == 52 * numDecks;
      if |cards| <= cutCard {
        Shuffle();
      }
      var last := |cards| - 1;
      card := cards[last];
      assert cards == cards[..last] + [card];
      cards := cards[..last];
      dealt := dealt + [card];
      drawn := drawn + [card];
    }
  }
}
