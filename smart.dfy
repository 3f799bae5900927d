/** The basic-strategy decision table (backend/strategies/playing/smart.py): a total,
    stateless function of the hand, the dealer's upcard and the offered options. */
module SmartStrategy {
  import opened Wrappers
  import opened Cards
  import opened Hands
  import opened Actions

  /** The dealer's upcard as the table looks it up; an ace is looked up as 11. */
  function UpcardValue(upcard: Card): (v: int)
    ensures v == PointValue(upcard.rank)
    ensures upcard.rank == Ace ==> v == 11
  {
    if upcard.rank == Ace then 11 else PointValue(upcard.rank)
  }

  /** DOUBLE when it is offered, `otherwise` when it is not. */
  function DoubleOr(options: Options, otherwise: Action): Action
  {
    if options.canDouble then Double else otherwise
  }

  /** The pair rows of the table for a pair of cards worth `cardValue`; `None` falls through
      to the soft and hard rows. */
  function PairAction(cardValue: int, dealerValue: int, options: Options): Option<Action>
  {
    if cardValue == 11 then Some(Split)
    else if cardValue == 10 then Some(Stand)
    else if cardValue == 9 then (if dealerValue in {7, 10, 11} then Some(Stand) else Some(Split))
    else if cardValue == 8 then Some(Split)
    else if cardValue == 7 then (if dealerValue <= 7 then Some(Split) else Some(Hit))
    else if cardValue == 6 then (if dealerValue <= 6 then Some(Split) else Some(Hit))
    else if cardValue == 5 then (if dealerValue <= 9 then Some(DoubleOr(options, Hit)) else Some(Hit))
    else if cardValue == 4 then (if dealerValue in {5, 6} then Some(Split) else Some(Hit))
    else if cardValue in {2, 3} then (if dealerValue <= 7 then Some(Split) else Some(Hit))
    else None
  }

  /** The soft rows of the table; `None` falls through to the hard rows. */
  function SoftAction(playerValue: int, dealerValue: int, options: Options): Option<Action>
  {
    if playerValue >= 19 then Some(Stand)
    else if playerValue == 18 then
      (if dealerValue <= 6 then Some(DoubleOr(options, Stand))
       else if dealerValue in {7, 8} then Some(Stand)
       else Some(Hit))
    else if playerValue == 17 then (if dealerValue <= 6 then Some(DoubleOr(options, Hit)) else Some(Hit))
    else if playerValue in {15, 16} then (if dealerValue in {4, 5, 6} then Some(DoubleOr(options, Hit)) else Some(Hit))
    else if playerValue in {13, 14} then (if dealerValue in {5, 6} then Some(DoubleOr(options, Hit)) else Some(Hit))
    else None
  }

  /** The hard rows of the table; the last row covers every total below 9. */
  function HardAction(playerValue: int, dealerValue: int, options: Options): Action
  {
    if playerValue >= 17 then Stand
    else if playerValue == 16 then
      (if dealerValue >= 9 && options.canSurrender then Surrender
       else if dealerValue <= 6 then Stand
       else Hit)
    else if playerValue == 15 then
      (if dealerValue == 10 && options.canSurrender then Surrender
       else if dealerValue <= 6 then Stand
       else Hit)
    else if playerValue in {13, 14} then (if dealerValue <= 6 then Stand else Hit)
    else if playerValue == 12 then (if dealerValue in {4, 5, 6} then Stand else Hit)
    else if playerValue == 11 then DoubleOr(options, Hit)
    else if playerValue == 10 then (if dealerValue <= 9 then DoubleOr(options, Hit) else Hit)
    else if playerValue == 9 then (if dealerValue in {3, 4, 5, 6} then DoubleOr(options, Hit) else Hit)
    else Hit
  }

  /** The strategy's answer: pair rows when the hand is a pair and a split is offered,
      then soft rows, then hard rows. It never suggests an action the engine would refuse. */
  function GetAction(d: Decision): (a: Action)
    ensures Permitted(a, d.options)
  {
    var cards := d.hand.cards;
    var playerValue := HandValue(cards);
    var dealerValue := UpcardValue(d.dealerUpcard);
    var pair := if IsPair(cards) && d.options.canSplit
      then PairAction(PointValue(cards[0].rank), dealerValue, d.options) else None;
    if pair.Some? then pair.value
    else
      var soft := if IsSoft(cards) && playerValue <= 21
        then SoftAction(playerValue, dealerValue, d.options) else None;
      if soft.Some? then soft.value else HardAction(playerValue, dealerValue, d.options)
  }

  /** The pair rows cover every card value, so a pair that may be split never falls through. */
  lemma PairRowsCoverEveryPair(cards: seq<Card>, dealerValue: int, options: Options)
    requires IsPair(cards)
    ensures PairAction(PointValue(cards[0].rank), dealerValue, options).Some?
  {
  }

  /** SPLIT is suggested only for a pair with a split offered. */
  lemma SplitOnlyWhenOffered(d: Decision)
    requires GetAction(d) == Split
    ensures IsPair(d.hand.cards) && d.options.canSplit
  {
  }

  /** DOUBLE is suggested only when a double is offered. */
  lemma DoubleOnlyWhenOffered(d: Decision)
    requires GetAction(d) == Double
    ensures d.options.canDouble
  {
  }

  /** SURRENDER is suggested only when offered, and only for hard 16 against 9, 10 or an
      ace, or hard 15 against a ten. */
  lemma SurrenderOnlyWhenOffered(d: Decision)
    requires GetAction(d) == Surrender
    ensures d.options.canSurrender && !IsSoft(d.hand.cards)
    ensures var v, up := HandValue(d.hand.cards), UpcardValue(d.dealerUpcard);
      (v == 16 && up >= 9) || (v == 15 && up == 10)
  {
    var cards := d.hand.cards;
    if IsSoft(cards) {
      SoftHands(cards);
    }
  }

  /** Soft totals of 19 or more stand; hard totals of 17 or more stand unless the hand
      is a pair that may be split (9,9 against 2 to 6, 8 or 9 splits). */
  lemma HighTotalsStand(d: Decision)
    ensures IsSoft(d.hand.cards) && HandValue(d.hand.cards) >= 19 ==> GetAction(d) == Stand
    ensures var cards := d.hand.cards;
      !IsSoft(cards) && HandValue(cards) >= 17 && !(IsPair(cards) && d.options.canSplit) ==> GetAction(d) == Stand
  {
    if IsSoft(d.hand.cards) {
      SoftHands(d.hand.cards);
    }
  }

  /** With a split offered: aces and eights split, ten-valued pairs stand. */
  lemma PairRules(d: Decision)
    requires IsPair(d.hand.cards) && d.options.canSplit
    ensures d.hand.cards[0].rank == Ace ==> GetAction(d) == Split
    ensures PointValue(d.hand.cards[0].rank) == 8 ==> GetAction(d) == Split
    ensures PointValue(d.hand.cards[0].rank) == 10 ==> GetAction(d) == Stand
  {
  }

  /** Hard 11 doubles when it may and hits otherwise; totals 4 to 8 hit unless the hand
      is a pair that may be split. */
  lemma ElevenAndLowTotals(d: Decision)
    ensures HandValue(d.hand.cards) == 11 ==>
      GetAction(d) == if d.options.canDouble then Double else Hit
    ensures var cards := d.hand.cards;
      4 <= HandValue(cards) <= 8 && !(IsPair(cards) && d.options.canSplit) ==> GetAction(d) == Hit
  {
    var cards := d.hand.cards;
    if IsPair(cards) {
      PairValue(cards);
    }
    if IsSoft(cards) {
      SoftHands(cards);
    }
  }
}
