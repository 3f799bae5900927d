/** One round of blackjack: the deal, the dealer's peek, the player's turns over a list of
    hands that grows with splits, the dealer's turn and the settlement
    (backend/engine/game.py). */
module Game {
  import opened Numbers
  import opened Wrappers
  import opened Cards
  import opened Hands
  import opened Actions

  /** The table rules. `resplitAces` and `hitSplitAces` are carried but never read. */
  datatype GameConfig = GameConfig(
    numDecks: int,
    penetration: real,
    shuffleEveryHand: bool,
    dealerHitsSoft17: bool,
    dealerPeeks: bool,
    blackjackPayout: real,
    surrenderAllowed: bool,
    doubleAfterSplit: bool,
    doubleOn: string,
    resplitAces: bool,
    hitSplitAces: bool,
    maxHands: int,
    minBet: real,
    maxBet: real)

  /** The configuration a `GameConfig()` without arguments has. */
  function DefaultConfig(): GameConfig
  {
    GameConfig(6, 0.75, false, false, true, 1.5, true, true, "any", false, false, 4, 5.0, 500.0)
  }

  /** What the shoe needs of a configuration: with fewer than one deck, or a penetration
      at or below -1 / (52 * numDecks) (a negative cut card), the source pops from an empty
      list. */
  predicate ShoeConfigOk(config: GameConfig)
  {
    config.numDecks >= 1 && CutCard(config.numDecks, config.penetration) >= 0
  }

  /** The outcome tag of a round. Only the two early exits set one; every other round
      keeps the initial empty tag, `Unset`. */
  datatype Outcome = Unset | Push | Loss | Blackjack

  datatype GameResult = GameResult(
    playerHands: seq<HandState>,
    dealerHand: HandState,
    netWin: real,
    outcome: Outcome,
    actionsTaken: seq<Action>,
    dealerUpcard: Card,
    initialPlayerHand: seq<Card>)

  /** Whether a hand may double: two cards, not a split hand when doubling after a split
      is off, and a total the `doubleOn` rule admits. */
  predicate CanDouble(config: GameConfig, cards: seq<Card>, isSplitHand: bool): (can: bool)
    ensures can ==> |cards| == 2 && !IsBusted(cards)
    ensures |cards| == 2 && (isSplitHand ==> config.doubleAfterSplit) && HandValue(cards) in {10, 11} ==> can
  {
    if |cards| != 2 then false
    else if isSplitHand && !config.doubleAfterSplit then false
    else
      var value := HandValue(cards);
      if config.doubleOn == "10-11" then value in {10, 11}
      else if config.doubleOn == "9-11" then value in {9, 10, 11}
      else true
  }

  lemma CanDoubleRules(config: GameConfig, cards: seq<Card>, isSplitHand: bool)
    ensures CanDouble(config, cards, isSplitHand) ==> |cards| == 2
    ensures isSplitHand && !config.doubleAfterSplit ==> !CanDouble(config, cards, isSplitHand)
    ensures CanDouble(config, cards, isSplitHand) && config.doubleOn == "10-11" ==> HandValue(cards) in {10, 11}
    ensures CanDouble(config, cards, isSplitHand) && config.doubleOn == "9-11" ==> HandValue(cards) in {9, 10, 11}
    ensures |cards| == 2 && !(isSplitHand && !config.doubleAfterSplit) && config.doubleOn !in {"10-11", "9-11"}
      ==> CanDouble(config, cards, isSplitHand)
  {
  }

  /** The largest number of hands a round can hold: the first hand, and splits only
      while fewer than `maxHands` hands exist. */
  function MaxHandCount(config: GameConfig): int
  {
    Max(1, config.maxHands)
  }

  /** The options offered at a decision point; double, split and surrender only on the
      hand's first decision. */
  function LegalOptions(config: GameConfig, hand: HandState, isFirstAction: bool, handCount: int): (o: Options)
    ensures !isFirstAction ==> o == Options(false, false, false)
    ensures o.canDouble ==> |hand.cards| == 2
    ensures o.canSplit ==> IsPair(hand.cards) && handCount < config.maxHands
    ensures o.canSurrender ==> config.surrenderAllowed && !hand.isSplitHand
  {
    Options(
      isFirstAction && CanDouble(config, hand.cards, hand.isSplitHand),
      isFirstAction && IsPair(hand.cards) && handCount < config.maxHands,
      isFirstAction && config.surrenderAllowed && !hand.isSplitHand)
  }

  /** The dealer hits below 17, and on a soft 17 when the soft-17 rule is on. */
  predicate DealerShouldHit(config: GameConfig, cards: seq<Card>): (hit: bool)
    ensures hit ==> HandValue(cards) <= 17 && !IsBusted(cards)
    ensures HandValue(cards) <= 16 ==> hit
  {
    var value := HandValue(cards);
    value < 17 || (value == 17 && IsSoft(cards) && config.dealerHitsSoft17)
  }

  /** A dealer that stops has at least 17, and not a soft 17 under the soft-17 rule; a
      dealer that hits has at most 17 with every ace counted 1. */
  lemma DealerStopRule(config: GameConfig, cards: seq<Card>)
    ensures !DealerShouldHit(config, cards) ==>
      HandValue(cards) >= 17 && !(HandValue(cards) == 17 && IsSoft(cards) && config.dealerHitsSoft17)
    ensures DealerShouldHit(config, cards) ==> HardTotal(cards) <= 17
  {
  }

  /** Under the soft-17 rule the dealer hits A,6 but stands on A,A,5, which the code does
      not count as soft. */
  lemma DealerSoftSeventeen(config: GameConfig)
    requires config.dealerHitsSoft17
    ensures DealerShouldHit(config, [Card(Ace, Hearts), Card(Six, Clubs)])
    ensures !DealerShouldHit(config, [Card(Ace, Hearts), Card(Ace, Spades), Card(Five, Clubs)])
  {
    TwoCardTotals([Card(Ace, Hearts), Card(Six, Clubs)]);
    MultiAceHandsAreNotSoft();
  }

  /** What one hand wins or loses against the dealer's final total. */
  function HandNet(hand: HandState, dealerValue: int, dealerBusted: bool): (net: real)
    ensures net == -(hand.bet / 2.0) || net == -hand.bet || net == 0.0 || net == hand.bet
    ensures hand.bet >= 0.0 ==> -hand.bet <= net <= hand.bet
  {
    if hand.isSurrendered then -(hand.bet / 2.0)
    else if IsBusted(hand.cards) then -hand.bet
    else if dealerBusted then hand.bet
    else
      var playerValue := HandValue(hand.cards);
      if playerValue > dealerValue then hand.bet
      else if playerValue < dealerValue then -hand.bet
      else 0.0
  }

  /** Surrender costs half the bet; a bust costs the whole bet even when the dealer busts
      too; otherwise a dealer bust pays the bet, and else the higher total wins the bet. */
  lemma HandNetRules(hand: HandState, dealerValue: int, dealerBusted: bool)
    ensures hand.isSurrendered ==> HandNet(hand, dealerValue, dealerBusted) == -(hand.bet / 2.0)
    ensures !hand.isSurrendered && IsBusted(hand.cards) ==> HandNet(hand, dealerValue, dealerBusted) == -hand.bet
    ensures !hand.isSurrendered && !IsBusted(hand.cards) && dealerBusted ==>
      HandNet(hand, dealerValue, dealerBusted) == hand.bet
    ensures !hand.isSurrendered && !IsBusted(hand.cards) && !dealerBusted ==>
      HandNet(hand, dealerValue, dealerBusted) ==
        if HandValue(hand.cards) > dealerValue then hand.bet
        else if HandValue(hand.cards) < dealerValue then -hand.bet
        else 0.0
  {
  }

  /** The round's net result: the sum of every hand's result against the dealer. */
  function Settlement(hands: seq<HandState>, dealerCards: seq<Card>): (net: real)
    ensures (forall i :: 0 <= i < |hands| ==> !hands[i].isSurrendered && IsBusted(hands[i].cards))
      ==> net == -TotalBet(hands)
    ensures IsBusted(dealerCards) && (forall i :: 0 <= i < |hands| ==> !hands[i].isSurrendered && !IsBusted(hands[i].cards))
      ==> net == TotalBet(hands)
  {
    if hands == [] then 0.0
    else
      Settlement(hands[..|hands| - 1], dealerCards)
        + HandNet(hands[|hands| - 1], HandValue(dealerCards), IsBusted(dealerCards))
  }

  /** Settling one more hand adds its result to the settlement of the hands before it. */
  lemma SettleNext(hands: seq<HandState>, i: int, dealerCards: seq<Card>)
    requires 0 <= i < |hands|
    ensures Settlement(hands[..i + 1], dealerCards)
      == Settlement(hands[..i], dealerCards) + HandNet(hands[i], HandValue(dealerCards), IsBusted(dealerCards))
  {
    assert hands[..i + 1][..i] == hands[..i];
  }

  function TotalBet(hands: seq<HandState>): real
  {
    if hands == [] then 0.0 else TotalBet(hands[..|hands| - 1]) + hands[|hands| - 1].bet
  }

  /** A round never wins or loses more than the sum of its hands' bets. */
  lemma {:induction false} SettlementBounds(hands: seq<HandState>, dealerCards: seq<Card>)
    requires forall i :: 0 <= i < |hands| ==> hands[i].bet >= 0.0
    ensures -TotalBet(hands) <= Settlement(hands, dealerCards) <= TotalBet(hands)
  {
    if hands != [] {
      SettlementBounds(hands[..|hands| - 1], dealerCards);
    }
  }

  /** Whether some hand is neither busted nor surrendered, so the dealer plays. */
  predicate SomeLive(hands: seq<HandState>)
  {
    exists i :: 0 <= i < |hands| && !IsBusted(hands[i].cards) && !hands[i].isSurrendered
  }

  /** A player's turn is over: the hand busted, or the last action recorded in its turn
      was a stand, a granted double or a granted surrender. */
  predicate TurnOver(hand: HandState, turn: seq<Action>)
  {
    || IsBusted(hand.cards)
    || (turn != [] &&
        var last := turn[|turn| - 1];
        last == Stand || (last == Double && hand.isDoubled) || (last == Surrender && hand.isSurrendered))
  }

  /** `marks` cuts the round's actions into one turn per hand, in the order of the hand
      list, and every hand that is not surrendered had its turn played to the end. */
  predicate TurnsCover(hands: seq<HandState>, actions: seq<Action>, marks: seq<nat>)
  {
    && |marks| == |hands| + 1 && marks[0] == 0 && marks[|hands|] == |actions|
    && (forall j, k :: 0 <= j <= k <= |hands| ==> marks[j] <= marks[k] <= |actions|)
    && (forall j :: 0 <= j < |hands| ==>
         hands[j].isSurrendered || TurnOver(hands[j], actions[marks[j]..marks[j + 1]]))
  }

  /** Closing one more turn keeps the turns before it and adds the new one. */
  lemma ExtendTurns(hands: seq<HandState>, actions: seq<Action>, marks: seq<nat>, hand: HandState,
                    actions': seq<Action>)
    requires TurnsCover(hands, actions, marks)
    requires |actions| <= |actions'| && actions'[..|actions|] == actions
    requires hand.isSurrendered || TurnOver(hand, actions'[|actions|..])
    ensures TurnsCover(hands + [hand], actions', marks + [|actions'|])
  {
    var hands', marks' := hands + [hand], marks + [|actions'|];
    forall j | 0 <= j < |hands'|
      ensures hands'[j].isSurrendered || TurnOver(hands'[j], actions'[marks'[j]..marks'[j + 1]])
    {
      if j < |hands| {
        var turn := actions[marks[j]..marks[j + 1]];
        assert hands[j].isSurrendered || TurnOver(hands[j], turn);
        assert marks'[j] == marks[j] <= marks[j + 1] == marks'[j + 1] <= |actions|;
        SliceOfPrefix(actions', |actions|, marks[j], marks[j + 1]);
        assert hands'[j] == hands[j] && actions'[marks'[j]..marks'[j + 1]] == turn;
      } else {
        assert hands'[j] == hand && actions'[marks'[j]..marks'[j + 1]] == actions'[|actions|..];
      }
    }
  }

  lemma SliceOfPrefix<T>(s: seq<T>, n: int, lo: int, hi: int)
    requires 0 <= lo <= hi <= n <= |s|
    ensures s[..n][lo..hi] == s[lo..hi]
  {
  }

  /** What the strategy was shown at one decision, and how many hands the round's list
      held at that moment. */
  datatype Ask = Ask(decision: Decision, handCount: int)

  /** After a hit or a granted split the hand's next decision is no longer its first. */
  predicate EndsFirstDecision(action: Action, options: Options)
  {
    action == Hit || (action == Split && options.canSplit)
  }

  /** `after` holds the cards of `before` and one more. */
  predicate OneMoreCard(before: HandState, after: HandState)
  {
    |after.cards| == |before.cards| + 1 && after.cards[..|before.cards|] == before.cards
  }

  /** What carrying out `action` under `options` does to the hand itself, the shoe aside:
      a stand or a request that is not offered leaves it as it was; a hit adds a card; a
      double doubles the bet, marks the hand and adds a card; a split keeps the first of
      two cards, takes a new second one and marks the hand; a surrender marks the hand. */
  predicate Stepped(hand: HandState, action: Action, options: Options, hand': HandState)
  {
    if !Permitted(action, options) || action == Stand then hand' == hand
    else match action
      case Hit =>
        && OneMoreCard(hand, hand') && hand'.bet == hand.bet && hand'.isSplitHand == hand.isSplitHand
        && hand'.isDoubled == hand.isDoubled && hand'.isSurrendered == hand.isSurrendered
      case Double =>
        && OneMoreCard(hand, hand') && hand'.bet == 2.0 * hand.bet && hand'.isDoubled
        && hand'.isSplitHand == hand.isSplitHand && hand'.isSurrendered == hand.isSurrendered
      case Split =>
        && |hand.cards| == 2 && |hand'.cards| == 2 && hand'.cards[0] == hand.cards[0] && hand'.isSplitHand
        && hand'.bet == hand.bet && hand'.isDoubled == hand.isDoubled && hand'.isSurrendered == hand.isSurrendered
      case Surrender => hand' == hand.(isSurrendered := true)
      case Stand => hand' == hand
  }

  /** A hand as a split leaves the hand it appends: two cards, marked split, the bet of
      the hand it came from, neither doubled nor surrendered. */
  predicate SplitOff(hand: HandState, bet: real)
  {
    |hand.cards| == 2 && hand.isSplitHand && hand.bet == bet && !hand.isDoubled && !hand.isSurrendered
  }

  /** No action of `turn` ended the hand's first decision, so its next decision is still
      a first one. */
  predicate StillFirst(turn: seq<Action>, asks: seq<Ask>)
    requires |asks| == |turn|
  {
    forall m :: 0 <= m < |turn| ==> !EndsFirstDecision(turn[m], asks[m].decision.options)
  }

  /** The decision `ask` that followed the actions `turn` of a hand's turn, answered by
      `action`: it shows the dealer's upcard, the round's actions so far (`before`, then
      `turn`) and the options `LegalOptions` gives the hand shown, where double, split and
      surrender need a first decision; the list then held between `low` and `high` hands,
      and `action` is the strategy's answer to it. */
  predicate Asked(config: GameConfig, upcard: Card, strategy: PlayingOracle, before: seq<Action>, turn: seq<Action>,
                  asks: seq<Ask>, ask: Ask, action: Action, low: int, high: int)
    requires |asks| == |turn|
  {
    && ask.decision.dealerUpcard == upcard
    && ask.decision.taken == before + turn
    && action == strategy(ask.decision)
    && low <= ask.handCount <= high
    && ask.decision.options == LegalOptions(config, ask.decision.hand, StillFirst(turn, asks), ask.handCount)
  }

  /** A turn that took the hand from `start` to `current`: every action of `turn` is the
      strategy's answer to the decision recorded for it in `asks`, each decision as
      `Asked` describes it; the first decision shows `start`, each later one the hand as
      the action before it left it (`Stepped`), and the last action leaves `current`. */
  predicate Consulted(config: GameConfig, upcard: Card, strategy: PlayingOracle, before: seq<Action>,
                      start: HandState, turn: seq<Action>, asks: seq<Ask>, current: HandState, low: int, high: int)
    decreases |turn|
  {
    && |asks| == |turn|
    && if turn == [] then current == start
       else
         var n := |turn| - 1;
         var shown := asks[n].decision;
         && Consulted(config, upcard, strategy, before, start, turn[..n], asks[..n], shown.hand, low, high)
         && Asked(config, upcard, strategy, before, turn[..n], asks[..n], asks[n], turn[n], low, high)
         && Stepped(shown.hand, turn[n], shown.options, current)
  }

  /** Read decision by decision: the `k`-th action of a consulted turn answers the `k`-th
      recorded decision, made after the turn's first `k` actions. */
  lemma {:induction false} ConsultedEach(config: GameConfig, upcard: Card, strategy: PlayingOracle, before: seq<Action>,
                                         start: HandState, turn: seq<Action>, asks: seq<Ask>, current: HandState,
                                         low: int, high: int)
    requires Consulted(config, upcard, strategy, before, start, turn, asks, current, low, high)
    ensures |asks| == |turn|
    ensures forall k :: 0 <= k < |turn| ==>
      Asked(config, upcard, strategy, before, turn[..k], asks[..k], asks[k], turn[k], low, high)
    decreases |turn|
  {
    if turn != [] {
      var n := |turn| - 1;
      ConsultedEach(config, upcard, strategy, before, start, turn[..n], asks[..n], asks[n].decision.hand, low, high);
      forall k | 0 <= k < n
        ensures Asked(config, upcard, strategy, before, turn[..k], asks[..k], asks[k], turn[k], low, high)
      {
        assert turn[..n][..k] == turn[..k] && asks[..n][..k] == asks[..k];
        assert turn[..n][k] == turn[k] && asks[..n][k] == asks[k];
      }
      assert Asked(config, upcard, strategy, before, turn[..n], asks[..n], asks[n], turn[n], low, high);
    }
  }

  /** The hands a consulted turn showed, read decision by decision: the first decision
      shows the hand the turn started from, each next one the hand as the action before
      it left it, and the last action leaves the hand as the turn ends. */
  lemma {:induction false} ConsultedShows(config: GameConfig, upcard: Card, strategy: PlayingOracle, before: seq<Action>,
                                          start: HandState, turn: seq<Action>, asks: seq<Ask>, current: HandState,
                                          low: int, high: int)
    requires Consulted(config, upcard, strategy, before, start, turn, asks, current, low, high)
    ensures |asks| == |turn|
    ensures turn == [] ==> current == start
    ensures turn != [] ==> asks[0].decision.hand == start
    ensures forall k :: 0 < k < |turn| ==>
      Stepped(asks[k - 1].decision.hand, turn[k - 1], asks[k - 1].decision.options, asks[k].decision.hand)
    ensures turn != [] ==>
      Stepped(asks[|turn| - 1].decision.hand, turn[|turn| - 1], asks[|turn| - 1].decision.options, current)
    decreases |turn|
  {
    if turn != [] {
      var n := |turn| - 1;
      var turn0, asks0 := turn[..n], asks[..n];
      ConsultedShows(config, upcard, strategy, before, start, turn0, asks0, asks[n].decision.hand, low, high);
      forall k | 0 < k < n
        ensures Stepped(asks[k - 1].decision.hand, turn[k - 1], asks[k - 1].decision.options, asks[k].decision.hand)
      {
        assert turn0[k - 1] == turn[k - 1] && asks0[k - 1] == asks[k - 1] && asks0[k] == asks[k];
      }
      if n > 0 {
        assert turn0[n - 1] == turn[n - 1] && asks0[n - 1] == asks[n - 1] && asks0[0] == asks[0];
      }
    }
  }

  /** One more decision extends a turn's record, and it ends the first decision exactly
      when its action is a hit or a granted split. */
  lemma ExtendConsulted(config: GameConfig, upcard: Card, strategy: PlayingOracle, before: seq<Action>,
                        start: HandState, turn: seq<Action>, asks: seq<Ask>, low: int, high: int,
                        ask: Ask, action: Action, current: HandState, high': int)
    requires Consulted(config, upcard, strategy, before, start, turn, asks, ask.decision.hand, low, high) && high <= high'
    requires Asked(config, upcard, strategy, before, turn, asks, ask, action, low, high')
    requires Stepped(ask.decision.hand, action, ask.decision.options, current)
    ensures Consulted(config, upcard, strategy, before, start, turn + [action], asks + [ask], current, low, high')
    ensures StillFirst(turn + [action], asks + [ask]) ==
      (StillFirst(turn, asks) && !EndsFirstDecision(action, ask.decision.options))
  {
    WidenConsulted(config, upcard, strategy, before, start, turn, asks, ask.decision.hand, low, high, low, high');
    assert (turn + [action])[..|turn|] == turn && (asks + [ask])[..|asks|] == asks;
  }

  /** The record of a turn holds for any wider range of hand counts. */
  lemma {:induction false} WidenConsulted(config: GameConfig, upcard: Card, strategy: PlayingOracle, before: seq<Action>,
                                          start: HandState, turn: seq<Action>, asks: seq<Ask>, current: HandState,
                                          low: int, high: int, low': int, high': int)
    requires Consulted(config, upcard, strategy, before, start, turn, asks, current, low, high)
    requires low' <= low && high <= high'
    ensures Consulted(config, upcard, strategy, before, start, turn, asks, current, low', high')
    decreases |turn|
  {
    if turn != [] {
      var n := |turn| - 1;
      WidenConsulted(config, upcard, strategy, before, start, turn[..n], asks[..n], asks[n].decision.hand,
                     low, high, low', high');
    }
  }

  /** A turn in progress: its actions so far were consulted from `start` to the hand as
      it stands, `now`; `isFirst` says whether the next decision is still the first; and
      the hand stakes the bet it started with, doubled if it is doubled. */
  predicate TurnSoFar(config: GameConfig, upcard: Card, strategy: PlayingOracle, before: seq<Action>,
                      start: HandState, turn: seq<Action>, asks: seq<Ask>, now: HandState, isFirst: bool,
                      low: int, high: int)
  {
    && Consulted(config, upcard, strategy, before, start, turn, asks, now, low, high)
    && isFirst == StillFirst(turn, asks)
    && now.bet == if now.isDoubled then 2.0 * start.bet else start.bet
  }

  /** Where hand `j` of the list stood when its turn began: the dealt hand `first` for
      the first hand, and a hand fresh from a split on `first`'s bet for every later one. */
  predicate TurnStart(j: int, start: HandState, first: HandState)
  {
    if j == 0 then start == first else SplitOff(start, first.bet)
  }

  /** Each turn that `marks` cuts from the round's actions was played by asking the
      strategy: hand `j`'s turn came when the list held more than `j` hands, began from
      `starts[j]` and left the hand as `hands[j]`. */
  predicate TurnsConsulted(config: GameConfig, upcard: Card, strategy: PlayingOracle, first: HandState,
                           hands: seq<HandState>, actions: seq<Action>, marks: seq<nat>, starts: seq<HandState>,
                           asks: seq<seq<Ask>>)
  {
    && |marks| == |asks| + 1 && |starts| == |asks| == |hands|
    && (forall j, k :: 0 <= j <= k <= |asks| ==> marks[j] <= marks[k] <= |actions|)
    && (forall j :: 0 <= j < |asks| ==> TurnStart(j, starts[j], first))
    && (forall j :: 0 <= j < |asks| ==>
         Consulted(config, upcard, strategy, actions[..marks[j]], starts[j], actions[marks[j]..marks[j + 1]], asks[j],
                   hands[j], j + 1, MaxHandCount(config)))
  }

  /** Closing one more consulted turn keeps the turns before it and adds the new one. */
  lemma ExtendConsultedTurns(config: GameConfig, upcard: Card, strategy: PlayingOracle, first: HandState,
                             hands: seq<HandState>, actions: seq<Action>, marks: seq<nat>, starts: seq<HandState>,
                             asks: seq<seq<Ask>>, actions': seq<Action>, start: HandState, turn: seq<Ask>, hand: HandState)
    requires TurnsConsulted(config, upcard, strategy, first, hands, actions, marks, starts, asks)
    requires marks[|asks|] == |actions| && TurnStart(|asks|, start, first)
    requires |actions| <= |actions'| && actions'[..|actions|] == actions
    requires Consulted(config, upcard, strategy, actions, start, actions'[|actions|..], turn, hand, |asks| + 1,
                       MaxHandCount(config))
    ensures TurnsConsulted(config, upcard, strategy, first, hands + [hand], actions', marks + [|actions'|],
                           starts + [start], asks + [turn])
  {
    var hands', marks', starts', asks' := hands + [hand], marks + [|actions'|], starts + [start], asks + [turn];
    forall j | 0 <= j < |asks'|
      ensures TurnStart(j, starts'[j], first)
    {
      assert starts'[j] == if j < |asks| then starts[j] else start;
    }
    forall j | 0 <= j < |asks'|
      ensures Consulted(config, upcard, strategy, actions'[..marks'[j]], starts'[j], actions'[marks'[j]..marks'[j + 1]],
                        asks'[j], hands'[j], j + 1, MaxHandCount(config))
    {
      if j < |asks| {
        assert asks'[j] == asks[j] && starts'[j] == starts[j] && hands'[j] == hands[j];
        assert marks'[j] == marks[j] && marks'[j + 1] == marks[j + 1];
        SliceOfPrefix(actions', |actions|, marks[j], marks[j + 1]);
        SliceOfPrefix(actions', |actions|, 0, marks[j]);
        assert actions'[..marks[j]] == actions[..marks[j]];
        assert Consulted(config, upcard, strategy, actions[..marks[j]], starts[j], actions[marks[j]..marks[j + 1]],
                         asks[j], hands[j], j + 1, MaxHandCount(config));
      } else {
        assert actions'[..marks'[j]] == actions && actions'[marks'[j]..marks'[j + 1]] == actions'[|actions|..];
        assert asks'[j] == turn && starts'[j] == start && hands'[j] == hand;
      }
    }
  }

  /** Closing the turn of the next hand of the list, which began from `start`, was
      consulted throughout and ended as `hand` with its bet doubled only if doubled,
      keeps every earlier turn and adds this one: played to the end, consulted, staked. */
  lemma CloseTurn(config: GameConfig, upcard: Card, strategy: PlayingOracle, first: HandState,
                  played: seq<HandState>, actions: seq<Action>, marks: seq<nat>, starts: seq<HandState>,
                  asks: seq<seq<Ask>>, start: HandState, turn: seq<Ask>, hand: HandState, actions': seq<Action>,
                  low: int, high: int)
    requires TurnsPlayed(config, upcard, strategy, first, played, actions, marks, starts, asks)
    requires TurnStart(|played|, start, first) && !first.isDoubled
    requires |actions| <= |actions'| && actions'[..|actions|] == actions
    requires hand.isSurrendered || TurnOver(hand, actions'[|actions|..])
    requires |played| < low && high <= MaxHandCount(config)
    requires Consulted(config, upcard, strategy, actions, start, actions'[|actions|..], turn, hand, low, high)
    requires hand.bet == if hand.isDoubled then 2.0 * start.bet else start.bet
    ensures TurnsPlayed(config, upcard, strategy, first, played + [hand], actions', marks + [|actions'|],
                        starts + [start], asks + [turn])
  {
    ExtendTurns(played, actions, marks, hand, actions');
    WidenConsulted(config, upcard, strategy, actions, start, actions'[|actions|..], turn, hand,
                   low, high, |played| + 1, MaxHandCount(config));
    ExtendConsultedTurns(config, upcard, strategy, first, played, actions, marks, starts, asks, actions', start, turn, hand);
    assert (played + [hand])[|played|] == hand;
  }

  /** The hands `played` so far, the first dealt as `first`, each played its turn to the
      end by asking the strategy, and each staked at `first`'s bet. */
  predicate TurnsPlayed(config: GameConfig, upcard: Card, strategy: PlayingOracle, first: HandState,
                        played: seq<HandState>, actions: seq<Action>, marks: seq<nat>, starts: seq<HandState>,
                        asks: seq<seq<Ask>>)
  {
    && TurnsCover(played, actions, marks)
    && TurnsConsulted(config, upcard, strategy, first, played, actions, marks, starts, asks)
    && AllStaked(played, first.bet)
  }

  /** Every hand of a round, the first dealt as `first`, played every turn to the end,
      and every turn by asking the strategy about the hand as it stood. */
  ghost predicate PlayedTurns(config: GameConfig, upcard: Card, strategy: PlayingOracle, first: HandState,
                              hands: seq<HandState>, actions: seq<Action>)
  {
    exists marks, starts, asks ::
      TurnsCover(hands, actions, marks) && TurnsConsulted(config, upcard, strategy, first, hands, actions, marks, starts, asks)
  }

  /** A hand's stake: the round's bet, doubled on a doubled hand. A split hand carries the
      bet of the hand it came from. */
  predicate Staked(hand: HandState, bet: real)
  {
    hand.bet == if hand.isDoubled then 2.0 * bet else bet
  }

  predicate AllStaked(hands: seq<HandState>, bet: real)
  {
    forall j :: 0 <= j < |hands| ==> Staked(hands[j], bet)
  }

  /** What a finished round promises of its result: the deal's shape, the two early exits
      after the dealer's peek and the player's natural, and otherwise every hand played
      to the end by asking the strategy, every hand staked at the bet (twice the bet when
      doubled), the dealer played when a hand is live, and the settlement. */
  ghost predicate RoundPromises(config: GameConfig, strategy: PlayingOracle, bet: real, r: GameResult)
  {
    && |r.initialPlayerHand| == 2 && |r.dealerHand.cards| >= 2
    && r.dealerHand.cards[1] == r.dealerUpcard
    && 1 <= |r.playerHands| <= MaxHandCount(config)
    && var peeked := config.dealerPeeks && IsBlackjack(r.dealerHand.cards[..2], false);
       var natural := IsBlackjack(r.initialPlayerHand, false);
       && (peeked ==>
            && r.actionsTaken == [] && |r.dealerHand.cards| == 2
            && r.playerHands == [HandState(r.initialPlayerHand, bet, false, false, false)]
            && (natural ==> r.outcome == Push && r.netWin == 0.0)
            && (!natural ==> r.outcome == Loss && r.netWin == -bet))
       && (!peeked && natural ==>
            && r.actionsTaken == [] && |r.dealerHand.cards| == 2
            && r.playerHands == [HandState(r.initialPlayerHand, bet, false, false, false)]
            && r.outcome == Blackjack && r.netWin == bet * config.blackjackPayout)
       && (!peeked && !natural ==>
            && r.outcome == Unset
            && PlayedTurns(config, r.dealerUpcard, strategy, HandState(r.initialPlayerHand, bet, false, false, false),
                            r.playerHands, r.actionsTaken)
            && AllStaked(r.playerHands, bet)
            && r.netWin == Settlement(r.playerHands, r.dealerHand.cards)
            && (SomeLive(r.playerHands) ==> !DealerShouldHit(config, r.dealerHand.cards))
            && (!SomeLive(r.playerHands) ==> |r.dealerHand.cards| == 2))
  }

  predicate Distinct(hands: seq<Hand>)
  {
    forall a, b :: 0 <= a < b < |hands| ==> hands[a] != hands[b]
  }

  function Views(hands: seq<Hand>): (views: seq<HandState>)
    reads hands
    ensures |views| == |hands|
    ensures forall i :: 0 <= i < |hands| ==> views[i] == hands[i].State()
  {
    seq(|hands|, i requires 0 <= i < |hands| reads hands => hands[i].State())
  }

  class BlackjackGame {
    const config: GameConfig
    const shoe: Shoe
    var dealerHand: Hand?

    ghost predicate Valid()
      reads this, shoe
    {
      shoe.Valid() && shoe.numDecks == config.numDecks && shoe.penetration == config.penetration
    }

    /** A game over `config`, or over the default configuration when none is given. */
    constructor (config: Option<GameConfig>)
      requires ShoeConfigOk(config.GetOr(DefaultConfig()))
      ensures Valid() && fresh(shoe)
      ensures this.config == config.GetOr(DefaultConfig()) && dealerHand == null
      ensures multiset(shoe.cards) == multiset(FullShoe(this.config.numDecks))
      ensures shoe.dealt == [] && shoe.drawn == []
    {
      this.config := config.GetOr(DefaultConfig());
      shoe := new Shoe(config.GetOr(DefaultConfig()).numDecks, config.GetOr(DefaultConfig()).penetration);
      dealerHand := null;
    }

    /** One round for a bet of `bet`. The strategy may be asked at most `fuel` times; a
        round that needs more (a strategy that keeps requesting a refused action) ends
        with `finished` false. */
    method PlayHand(bet: real, strategy: PlayingOracle, fuel: nat) returns (result: GameResult, finished: bool)
      requires Valid()
      modifies this, shoe
      ensures Valid()
      ensures dealerHand != null && fresh(dealerHand) && dealerHand.State() == result.dealerHand
      ensures |result.initialPlayerHand| == 2 && |result.dealerHand.cards| >= 2
      ensures result.dealerHand.cards[1] == result.dealerUpcard
      ensures config.dealerPeeks && IsBlackjack(result.dealerHand.cards[..2], false) ==> finished
      ensures IsBlackjack(result.initialPlayerHand, false) ==> finished
      ensures finished ==> RoundPromises(config, strategy, bet, result)
      // the deal: player, dealer, player, dealer, as the next four cards of the shoe
      ensures shoe.Advanced()
      ensures var d := |old(shoe.drawn)|;
        && |shoe.drawn| >= d + 4
        && shoe.drawn[d..d + 4] == [result.initialPlayerHand[0], result.dealerHand.cards[0],
                                    result.initialPlayerHand[1], result.dealerHand.cards[1]]
      // the dealer's later cards are the round's last deals
      ensures var added := result.dealerHand.cards[2..];
        |added| <= |shoe.drawn| && shoe.drawn[|shoe.drawn| - |added|..] == added
      // shuffling every hand: no card dealt in an earlier round is still out of the shoe
      ensures config.shuffleEveryHand ==> shoe.shuffledAt >= |old(shoe.drawn)|
    {
      if config.shuffleEveryHand {
        shoe.Shuffle();
      }
      ghost var before := shoe.drawn;
      var playerHand, dealer, upcard := DealRound(bet);
      dealerHand := dealer;
      ghost var dealt := shoe.drawn;
      result, finished := PeekAndPlay(bet, playerHand, dealer, upcard, strategy, fuel);
      assert shoe.drawn[..|before| + 4] == dealt[..|before| + 4];
    }

    /** Everything after the deal: the dealer's peek, the player's natural, and otherwise
        the player's and the dealer's turns and the settlement. */
    method PeekAndPlay(bet: real, playerHand: Hand, dealer: Hand, upcard: Card, strategy: PlayingOracle, fuel: nat)
      returns (result: GameResult, finished: bool)
      requires shoe.Valid() && playerHand != dealer
      requires playerHand.State() == HandState(playerHand.cards, bet, false, false, false) && |playerHand.cards| == 2
      requires dealer.State() == HandState(dealer.cards, 0.0, false, false, false)
      requires |dealer.cards| == 2 && dealer.cards[1] == upcard
      modifies playerHand, dealer, shoe
      ensures shoe.Valid() && shoe.Advanced()
      ensures result.dealerHand == dealer.State() && result.dealerUpcard == upcard
      ensures result.initialPlayerHand == old(playerHand.cards)
      ensures |result.dealerHand.cards| >= 2 && result.dealerHand.cards[..2] == old(dealer.cards)
      ensures config.dealerPeeks && IsBlackjack(old(dealer.cards), false) ==> finished
      ensures IsBlackjack(old(playerHand.cards), false) ==> finished
      ensures finished ==> RoundPromises(config, strategy, bet, result)
      ensures var added := result.dealerHand.cards[2..];
        |added| <= |shoe.drawn| && shoe.drawn[|shoe.drawn| - |added|..] == added
    {
      var initial := playerHand.cards;
      if config.dealerPeeks && IsBlackjack(dealer.cards, dealer.isSplitHand) {
        var outcome, net := Loss, -bet;
        if IsBlackjack(playerHand.cards, playerHand.isSplitHand) {
          outcome, net := Push, 0.0;
        }
        assert dealer.cards[..2] == dealer.cards && dealer.cards[2..] == [];
        return GameResult([playerHand.State()], dealer.State(), net, outcome, [], upcard, initial), true;
      }

      if IsBlackjack(playerHand.cards, playerHand.isSplitHand) {
        var net := bet * config.blackjackPayout;
        assert dealer.cards[..2] == dealer.cards && dealer.cards[2..] == [];
        return GameResult([playerHand.State()], dealer.State(), net, Blackjack, [], upcard, initial), true;
      }

      result, finished := PlayOut(playerHand, dealer, upcard, strategy, fuel);
    }

    /** The initial deal: player, dealer, player, dealer; the dealer's second card is the
        upcard. */
    method DealRound(bet: real) returns (playerHand: Hand, dealer: Hand, upcard: Card)
      requires shoe.Valid()
      modifies shoe
      ensures shoe.Valid() && fresh(playerHand) && fresh(dealer) && playerHand != dealer
      ensures playerHand.State() == HandState(playerHand.cards, bet, false, false, false)
      ensures |playerHand.cards| == 2
      ensures dealer.State() == HandState(dealer.cards, 0.0, false, false, false)
      ensures |dealer.cards| == 2 && dealer.cards[1] == upcard
      ensures shoe.Advanced()
      ensures shoe.drawn == old(shoe.drawn) + [playerHand.cards[0], dealer.cards[0], playerHand.cards[1], dealer.cards[1]]
    {
      var first, second := DealPass();
      var third;
      third, upcard := DealPass();
      playerHand := new Hand();
      playerHand.bet := bet;
      playerHand.AddCard(first);
      playerHand.AddCard(third);
      dealer := new Hand();
      dealer.AddCard(second);
      dealer.AddCard(upcard);
    }

    /** One pass of the initial deal: a card for the player, then one for the dealer. */
    method DealPass() returns (toPlayer: Card, toDealer: Card)
      requires shoe.Valid()
      modifies shoe
      ensures shoe.Valid() && shoe.Advanced()
      ensures shoe.drawn == old(shoe.drawn) + [toPlayer, toDealer]
    {
      toPlayer := shoe.Deal();
      toDealer := shoe.Deal();
    }

    /** A round with no natural on either side: the player's turns, the dealer's turn when
        some hand is still live, and the settlement. */
    method PlayOut(playerHand: Hand, dealer: Hand, upcard: Card, strategy: PlayingOracle, fuel: nat)
      returns (result: GameResult, finished: bool)
      requires shoe.Valid() && playerHand != dealer && !playerHand.isDoubled
      modifies playerHand, dealer, shoe
      ensures shoe.Valid()
      ensures result.initialPlayerHand == old(playerHand.cards) && result.dealerUpcard == upcard
      ensures result.dealerHand == dealer.State()
      ensures |result.dealerHand.cards| >= |old(dealer.cards)|
      ensures result.dealerHand.cards[..|old(dealer.cards)|] == old(dealer.cards)
      ensures 1 <= |result.playerHands| <= MaxHandCount(config)
      ensures shoe.Advanced()
      ensures var added := result.dealerHand.cards[|old(dealer.cards)|..];
        |added| <= |shoe.drawn| && shoe.drawn[|shoe.drawn| - |added|..] == added
      ensures finished ==>
        && result.outcome == Unset
        && PlayedTurns(config, upcard, strategy, old(playerHand.State()), result.playerHands, result.actionsTaken)
        && AllStaked(result.playerHands, old(playerHand.bet))
        && result.netWin == Settlement(result.playerHands, result.dealerHand.cards)
        && (SomeLive(result.playerHands) ==> !DealerShouldHit(config, result.dealerHand.cards))
        && (!SomeLive(result.playerHands) ==> result.dealerHand.cards == old(dealer.cards))
    {
      var initial := playerHand.cards;
      var hands, actions;
      ghost var marks, starts, asks;
      hands, actions, finished, marks, starts, asks := PlayPlayerHands(playerHand, upcard, strategy, fuel);
      if !finished {
        return GameResult(Views(hands), dealer.State(), 0.0, Unset, actions, upcard, initial), false;
      }
      var views := Views(hands);
      var net := DealerAndSettle(hands, views, dealer);
      result := GameResult(views, dealer.State(), net, Unset, actions, upcard, initial);
      assert TurnsCover(views, actions, marks)
        && TurnsConsulted(config, upcard, strategy, old(playerHand.State()), views, actions, marks, starts, asks);
    }

    /** The dealer's turn when some hand is still live, then the settlement of every hand
        against the dealer's final cards. */
    method DealerAndSettle(hands: seq<Hand>, views: seq<HandState>, dealer: Hand) returns (net: real)
      requires shoe.Valid() && dealer !in hands && views == Views(hands)
      modifies dealer, shoe
      ensures shoe.Valid() && shoe.Advanced()
      ensures |dealer.cards| >= |old(dealer.cards)| && dealer.cards[..|old(dealer.cards)|] == old(dealer.cards)
      ensures shoe.drawn == old(shoe.drawn) + dealer.cards[|old(dealer.cards)|..]
      ensures net == Settlement(views, dealer.cards)
      ensures SomeLive(views) ==> !DealerShouldHit(config, dealer.cards)
      ensures !SomeLive(views) ==> dealer.cards == old(dealer.cards)
    {
      if SomeLive(views) {
        PlayDealer(dealer);
        assert Views(hands) == views;
      } else {
        assert dealer.cards[|dealer.cards|..] == [];
      }
      net := ResolveHands(hands, dealer);
    }

    /** The player's turns: every hand of the list, including the hands splits append
        while the list is walked, is played unless it is surrendered. */
    method PlayPlayerHands(first: Hand, upcard: Card, strategy: PlayingOracle, fuel: nat)
      returns (hands: seq<Hand>, actions: seq<Action>, finished: bool, ghost marks: seq<nat>,
               ghost starts: seq<HandState>, ghost asks: seq<seq<Ask>>)
      requires shoe.Valid() && !first.isDoubled
      modifies first, shoe
      ensures shoe.Valid() && shoe.Advanced()
      ensures 1 <= |hands| <= MaxHandCount(config) && hands[0] == first
      ensures forall j :: 1 <= j < |hands| ==> fresh(hands[j])
      ensures finished ==> TurnsCover(Views(hands), actions, marks)
      ensures finished ==> TurnsConsulted(config, upcard, strategy, old(first.State()), Views(hands), actions, marks, starts, asks)
      ensures finished ==> AllStaked(Views(hands), old(first.bet))
    {
      hands := [first];
      actions := [];
      finished := true;
      marks, starts, asks := [0], [], [];
      ghost var played: seq<HandState> := [];
      ghost var dealt := first.State();
      var remaining := fuel;
      var i := 0;
      while i < |hands|
        invariant shoe.Valid() && shoe.Advanced()
        invariant 0 <= i <= |hands| <= MaxHandCount(config) && 1 <= |hands| && hands[0] == first
        invariant forall j :: 1 <= j < |hands| ==> fresh(hands[j])
        invariant Distinct(hands)
        invariant |played| == i && forall j :: 0 <= j < i ==> hands[j].State() == played[j]
        invariant TurnsPlayed(config, upcard, strategy, dealt, played, actions, marks, starts, asks)
        invariant forall j :: i <= j < |hands| ==> TurnStart(j, hands[j].State(), dealt)
        decreases MaxHandCount(config) - i
      {
        hands, actions, remaining, finished, played, marks, starts, asks :=
          PlayTurn(upcard, strategy, hands, actions, remaining, i, dealt, played, marks, starts, asks);
        if !finished {
          return;
        }
        i := i + 1;
      }
      assert Views(hands) == played;
    }

    /** The turn of hand `i` of the list, unless it is surrendered, with its bookkeeping:
        the first hand was dealt as `dealt`; the hands before `i` were played as `played`,
        their turns cut from `actions` by `marks`, begun from `starts` and recorded in
        `asks`; every hand from `i` on stands as its turn begins (`TurnStart`). Once the
        turn is played to the end, the same holds one hand further. */
    method PlayTurn(upcard: Card, strategy: PlayingOracle, hands: seq<Hand>, actions: seq<Action>, fuel: nat,
                    i: int, ghost dealt: HandState, ghost played: seq<HandState>, ghost marks: seq<nat>,
                    ghost starts: seq<HandState>, ghost asks: seq<seq<Ask>>)
      returns (hands': seq<Hand>, actions': seq<Action>, fuel': nat, finished: bool, ghost played': seq<HandState>,
               ghost marks': seq<nat>, ghost starts': seq<HandState>, ghost asks': seq<seq<Ask>>)
      requires shoe.Valid() && !dealt.isDoubled
      requires 0 <= i < |hands| <= MaxHandCount(config) && Distinct(hands)
      requires |played| == i && forall j :: 0 <= j < i ==> hands[j].State() == played[j]
      requires TurnsPlayed(config, upcard, strategy, dealt, played, actions, marks, starts, asks)
      requires forall j :: i <= j < |hands| ==> TurnStart(j, hands[j].State(), dealt)
      modifies hands[i], shoe
      ensures shoe.Valid() && shoe.Advanced()
      ensures |hands| <= |hands'| <= MaxHandCount(config) && hands'[..|hands|] == hands
      ensures forall j :: |hands| <= j < |hands'| ==> fresh(hands'[j])
      ensures Distinct(hands')
      ensures finished ==> |played'| == i + 1 && forall j :: 0 <= j <= i ==> hands'[j].State() == played'[j]
      ensures finished ==> TurnsPlayed(config, upcard, strategy, dealt, played', actions', marks', starts', asks')
      ensures finished ==> forall j :: i < j < |hands'| ==> TurnStart(j, hands'[j].State(), dealt)
    {
      var hand := hands[i];
      ghost var start := hand.State();
      assert TurnStart(i, start, dealt);
      hands', actions', fuel', finished := hands, actions, fuel, true;
      played', marks', starts', asks' := played, marks, starts, asks;
      ghost var turn: seq<Ask> := [];
      if !hand.isSurrendered {
        hands', actions', fuel', finished, turn := PlayPlayerHand(hand, upcard, strategy, hands, actions, fuel);
        if !finished {
          return;
        }
        forall j | 0 <= j < i
          ensures hands'[j].State() == played[j]
        {
          assert hands'[j] == hands[j] != hand;
        }
        forall j | i < j < |hands|
          ensures TurnStart(j, hands'[j].State(), dealt)
        {
          assert hands'[j] == hands[j] != hand;
        }
      }
      CloseTurn(config, upcard, strategy, dealt, played, actions, marks, starts, asks, start, turn, hand.State(), actions',
                |hands|, |hands'|);
      played', marks', starts', asks' := played + [hand.State()], marks + [|actions'|], starts + [start], asks + [turn];
    }

    /** One hand's turn: decisions until the hand stands, doubles, surrenders or busts.
        A refused request leaves `isFirstAction` as it was and the strategy is asked again. */
    method PlayPlayerHand(hand: Hand, upcard: Card, strategy: PlayingOracle, hands: seq<Hand>,
                          actions: seq<Action>, fuel: nat)
      returns (hands': seq<Hand>, actions': seq<Action>, fuel': nat, finished: bool, ghost asks: seq<Ask>)
      requires shoe.Valid() && !hand.isDoubled
      requires hand in hands && |hands| <= MaxHandCount(config) && Distinct(hands)
      modifies hand, shoe
      ensures shoe.Valid() && shoe.Advanced()
      ensures |hands| <= |hands'| <= MaxHandCount(config) && hands'[..|hands|] == hands
      ensures forall j :: |hands| <= j < |hands'| ==> fresh(hands'[j])
      ensures Distinct(hands')
      ensures |actions'| >= |actions| && actions'[..|actions|] == actions
      ensures |actions'| - |actions| == fuel - fuel'
      ensures finished ==> TurnOver(hand.State(), actions'[|actions|..])
      // every action of the turn is the strategy's answer about the hand as it then stood,
      // from the hand as it came to the hand as it ends
      ensures Consulted(config, upcard, strategy, actions, old(hand.State()), actions'[|actions|..], asks, hand.State(),
                        |hands|, |hands'|)
      // the stake: doubled only by a double; hands split off carry the hand's bet
      ensures hand.bet == if hand.isDoubled then 2.0 * old(hand.bet) else old(hand.bet)
      ensures forall j :: |hands| <= j < |hands'| ==> SplitOff(hands'[j].State(), old(hand.bet))
    {
      hands', actions', fuel', finished := hands, actions, fuel, true;
      asks := [];
      ghost var turn: seq<Action> := [];
      ghost var at :| 0 <= at < |hands| && hands[at] == hand;
      var isFirstAction := true;
      var stop := false;
      while !stop && !IsBusted(hand.cards)
        invariant shoe.Valid() && shoe.Advanced()
        invariant |hands| <= |hands'| <= MaxHandCount(config) && hands'[..|hands|] == hands
        invariant forall j :: |hands| <= j < |hands'| ==> fresh(hands'[j])
        invariant Distinct(hands')
        invariant actions' == actions + turn && |turn| == fuel - fuel'
        invariant stop ==> TurnOver(hand.State(), turn)
        invariant TurnSoFar(config, upcard, strategy, actions, old(hand.State()), turn, asks, hand.State(), isFirstAction,
                            |hands|, |hands'|)
        invariant hand.isDoubled ==> stop
        invariant forall j :: |hands| <= j < |hands'| ==> SplitOff(hands'[j].State(), old(hand.bet))
        decreases fuel'
      {
        if fuel' == 0 {
          finished := false;
          assert actions'[|actions|..] == turn;
          return;
        }
        fuel' := fuel' - 1;
        hands', actions', stop, isFirstAction, turn, asks :=
          Decide(hand, upcard, strategy, hands', actions', isFirstAction, actions, old(hand.State()), turn, asks, at, |hands|);
      }
      assert actions'[|actions|..] == turn;
    }

    /** The effect of carrying out `action` on `hand`: on the hand itself as `Stepped`
        says, so a double, split or surrender that `options` does not offer changes
        nothing and the strategy is asked again. The turn stops exactly on a stand, a
        granted double or a granted surrender. A hit or a granted double takes the shoe's
        next card; a granted split appends one new hand holding the old second card and
        deals the two hands their new second cards in order; every other action leaves
        the list as it was, and a stand, a refused request or a surrender leaves the shoe
        untouched. Only a hit or a split that is carried out ends the hand's first decision. */
    twostate predicate Carried(hand: Hand, hands: seq<Hand>, new hands': seq<Hand>, options: Options, action: Action,
                               stop: bool, isFirstAction: bool, isFirstAfter: bool)
      reads hand, shoe, hands'
    {
      && isFirstAfter == (isFirstAction && !EndsFirstDecision(action, options))
      && stop == (action == Stand || (action == Double && options.canDouble) || (action == Surrender && options.canSurrender))
      && Stepped(old(hand.State()), action, options, hand.State())
      && (action == Hit || (action == Double && options.canDouble) ==>
          |hand.cards| > 0 && shoe.DealtNext(hand.cards[|hand.cards| - 1]))
      && (action == Split && options.canSplit ==>
          && |old(hand.cards)| == 2 && |hands'| == |hands| + 1 <= config.maxHands
          && var added := hands'[|hands|];
            && SplitOff(added.State(), old(hand.bet)) && added.cards[0] == old(hand.cards[1])
            && |hand.cards| == 2 && shoe.drawn == old(shoe.drawn) + [hand.cards[1], added.cards[1]])
      && (!(action == Split && options.canSplit) ==> hands' == hands)
      && (action == Stand || !Permitted(action, options) || (action == Surrender && options.canSurrender) ==>
          unchanged(shoe))
    }

    /** One decision point of a turn, with its bookkeeping: the turn's hand is `hands[at]`;
        the turn so far is `turn`, after the round's earlier actions `before`, with its
        decisions recorded in `asks`, and took the hand from `start` to where it stands;
        hands from position `low` on were split off the turn's hand, on its bet. The
        decision appends one action and one recorded decision, about the hand as it
        stands, to the turn and its record. */
    method Decide(hand: Hand, upcard: Card, strategy: PlayingOracle, hands: seq<Hand>, actions: seq<Action>,
                  isFirstAction: bool, ghost before: seq<Action>, ghost start: HandState, ghost turn: seq<Action>,
                  ghost asks: seq<Ask>, ghost at: int, ghost low: int)
      returns (hands': seq<Hand>, actions': seq<Action>, stop: bool, isFirstAfter: bool,
               ghost turn': seq<Action>, ghost asks': seq<Ask>)
      requires shoe.Valid()
      requires 0 <= at < low <= |hands| <= MaxHandCount(config) && hands[at] == hand && Distinct(hands)
      requires actions == before + turn && !hand.isDoubled
      requires TurnSoFar(config, upcard, strategy, before, start, turn, asks, hand.State(), isFirstAction, low, |hands|)
      requires forall j :: low <= j < |hands| ==> SplitOff(hands[j].State(), start.bet)
      modifies hand, shoe
      ensures shoe.Valid() && shoe.Advanced()
      ensures |hands| <= |hands'| <= MaxHandCount(config) && hands'[..|hands|] == hands
      ensures forall j :: |hands| <= j < |hands'| ==> fresh(hands'[j])
      ensures Distinct(hands')
      ensures actions' == before + turn'
      // one action and one decision appended, the decision showing the hand as it stood
      ensures |turn'| == |turn| + 1 && turn' == turn + [turn'[|turn|]]
      ensures |asks'| == |asks| + 1 && asks' == asks + [asks'[|asks|]]
      ensures asks'[|asks|].decision.hand == old(hand.State())
      ensures stop ==> TurnOver(hand.State(), turn')
      ensures TurnSoFar(config, upcard, strategy, before, start, turn', asks', hand.State(), isFirstAfter, low, |hands'|)
      ensures hand.isDoubled ==> stop
      ensures forall j :: low <= j < |hands'| ==> SplitOff(hands'[j].State(), start.bet)
    {
      ghost var state := hand.State();
      var options, action;
      hands', actions', options, action, stop, isFirstAfter := PlayerDecision(hand, upcard, strategy, hands, actions, isFirstAction);
      ghost var ask := Ask(Decision(state, upcard, options, actions), |hands|);
      ExtendConsulted(config, upcard, strategy, before, start, turn, asks, low, |hands|, ask, action, hand.State(), |hands'|);
      turn', asks' := turn + [action], asks + [ask];
      forall j | low <= j < |hands|
        ensures SplitOff(hands'[j].State(), start.bet)
      {
        assert hands'[j] == hands[j] != hands[at];
      }
    }

    /** One decision point: offer the legal options, record the strategy's action and
        carry it out, or, for a double, split or surrender that is not offered, change
        nothing so that the strategy is asked again. */
    method PlayerDecision(hand: Hand, upcard: Card, strategy: PlayingOracle, hands: seq<Hand>,
                          actions: seq<Action>, isFirstAction: bool)
      returns (hands': seq<Hand>, actions': seq<Action>, options: Options, action: Action,
               stop: bool, isFirstAfter: bool)
      requires shoe.Valid()
      requires hand in hands && |hands| <= MaxHandCount(config) && Distinct(hands)
      modifies hand, shoe
      ensures shoe.Valid() && shoe.Advanced()
      ensures options == LegalOptions(config, old(hand.State()), isFirstAction, |hands|)
      ensures action == strategy(Decision(old(hand.State()), upcard, options, actions))
      ensures actions' == actions + [action]
      ensures |hands| <= |hands'| <= MaxHandCount(config) && hands'[..|hands|] == hands
      ensures forall j :: |hands| <= j < |hands'| ==> fresh(hands'[j])
      ensures Distinct(hands')
      ensures stop ==>
        action == Stand || (action == Double && hand.isDoubled) || (action == Surrender && hand.isSurrendered)
      ensures Carried(hand, hands, hands', options, action, stop, isFirstAction, isFirstAfter)
      // the stake, and the hand a split appends
      ensures hand.isDoubled == (old(hand.isDoubled) || (action == Double && options.canDouble))
      ensures hand.bet == if action == Double && options.canDouble then 2.0 * old(hand.bet) else old(hand.bet)
      ensures forall j :: |hands| <= j < |hands'| ==> SplitOff(hands'[j].State(), old(hand.bet))
    {
      var state := hand.State();
      options := LegalOptions(config, state, isFirstAction, |hands|);
      action := strategy(Decision(state, upcard, options, actions));
      actions' := actions + [action];
      hands', stop, isFirstAfter := CarryOut(hand, hands, options, action, isFirstAction);
    }

    /** Carries out the strategy's action on `hand`, or changes nothing when the action is
        a double, split or surrender that `options` does not offer. */
    method CarryOut(hand: Hand, hands: seq<Hand>, options: Options, action: Action, isFirstAction: bool)
      returns (hands': seq<Hand>, stop: bool, isFirstAfter: bool)
      requires shoe.Valid()
      requires hand in hands && |hands| <= MaxHandCount(config) && Distinct(hands)
      requires options.canSplit ==> |hand.cards| == 2 && |hands| < config.maxHands
      modifies hand, shoe
      ensures shoe.Valid() && shoe.Advanced()
      ensures |hands| <= |hands'| <= MaxHandCount(config) && hands'[..|hands|] == hands
      ensures forall j :: |hands| <= j < |hands'| ==> fresh(hands'[j])
      ensures Distinct(hands')
      ensures stop ==>
        action == Stand || (action == Double && hand.isDoubled) || (action == Surrender && hand.isSurrendered)
      ensures Carried(hand, hands, hands', options, action, stop, isFirstAction, isFirstAfter)
      // the stake, and the hand a split appends
      ensures hand.isDoubled == (old(hand.isDoubled) || (action == Double && options.canDouble))
      ensures hand.bet == if action == Double && options.canDouble then 2.0 * old(hand.bet) else old(hand.bet)
      ensures forall j :: |hands| <= j < |hands'| ==> SplitOff(hands'[j].State(), old(hand.bet))
    {
      hands', stop, isFirstAfter := hands, false, isFirstAction;
      match action
      case Stand =>
        stop := true;
      case Hit =>
        HitHand(hand);
        isFirstAfter := false;
      case Double =>
        if options.canDouble {
          DoubleDown(hand);
          stop := true;
        }
      case Split =>
        if options.canSplit {
          var added := SplitHand(hand);
          hands' := hands + [added];
          isFirstAfter := false;
        }
      case Surrender =>
        if options.canSurrender {
          hand.isSurrendered := true;
          stop := true;
        }
    }

    /** HIT: one card from the shoe, nothing else changes. */
    method HitHand(hand: Hand)
      requires shoe.Valid()
      modifies hand, shoe
      ensures shoe.Valid() && shoe.Advanced()
      ensures |hand.cards| == |old(hand.cards)| + 1 && hand.cards[..|old(hand.cards)|] == old(hand.cards)
      ensures shoe.DealtNext(hand.cards[|hand.cards| - 1])
      ensures shoe.drawn == old(shoe.drawn) + [hand.cards[|hand.cards| - 1]]
      ensures hand.bet == old(hand.bet) && hand.isSplitHand == old(hand.isSplitHand)
      ensures hand.isDoubled == old(hand.isDoubled) && hand.isSurrendered == old(hand.isSurrendered)
    {
      var card := shoe.Deal();
      hand.AddCard(card);
      assert hand.cards[..|old(hand.cards)|] == old(hand.cards);
    }

    /** DOUBLE: the bet doubles, the hand is marked doubled and takes exactly one card. */
    method DoubleDown(hand: Hand)
      requires shoe.Valid()
      modifies hand, shoe
      ensures shoe.Valid() && shoe.Advanced()
      ensures |hand.cards| == |old(hand.cards)| + 1 && hand.cards[..|old(hand.cards)|] == old(hand.cards)
      ensures shoe.DealtNext(hand.cards[|hand.cards| - 1])
      ensures hand.bet == 2.0 * old(hand.bet) && hand.isDoubled
      ensures hand.isSplitHand == old(hand.isSplitHand) && hand.isSurrendered == old(hand.isSurrendered)
    {
      hand.bet := hand.bet * 2.0;
      hand.isDoubled := true;
      var card := shoe.Deal();
      hand.AddCard(card);
      assert hand.cards[..|old(hand.cards)|] == old(hand.cards);
    }

    /** SPLIT: the second card moves to a new hand with the same bet; both hands are
        marked split and each takes one card, the original hand first. */
    method SplitHand(hand: Hand) returns (added: Hand)
      requires shoe.Valid() && |hand.cards| == 2
      modifies hand, shoe
      ensures shoe.Valid() && shoe.Advanced() && fresh(added)
      ensures |hand.cards| == 2 && hand.cards[0] == old(hand.cards[0]) && hand.isSplitHand
      ensures hand.bet == old(hand.bet) && hand.isDoubled == old(hand.isDoubled)
      ensures hand.isSurrendered == old(hand.isSurrendered)
      ensures |added.cards| == 2 && added.cards[0] == old(hand.cards[1]) && added.isSplitHand
      ensures added.bet == old(hand.bet) && !added.isDoubled && !added.isSurrendered
      ensures shoe.drawn == old(shoe.drawn) + [hand.cards[1], added.cards[1]]
    {
      added := new Hand();
      added.bet := hand.bet;
      added.isSplitHand := true;
      added.AddCard(hand.cards[1]);
      hand.cards := hand.cards[..1];
      hand.isSplitHand := true;
      var card := shoe.Deal();
      hand.AddCard(card);
      card := shoe.Deal();
      added.AddCard(card);
    }

    /** The dealer's turn: draw while `DealerShouldHit`. The loop ends because every card
        raises the all-aces-as-1 total, which a hitting dealer keeps at 17 or below. */
    method PlayDealer(dealer: Hand)
      requires shoe.Valid()
      modifies dealer, shoe
      ensures shoe.Valid() && shoe.Advanced()
      ensures !DealerShouldHit(config, dealer.cards)
      ensures |dealer.cards| >= |old(dealer.cards)| && dealer.cards[..|old(dealer.cards)|] == old(dealer.cards)
      ensures shoe.drawn == old(shoe.drawn) + dealer.cards[|old(dealer.cards)|..]
      ensures !DealerShouldHit(config, old(dealer.cards)) ==> dealer.cards == old(dealer.cards)
    {
      while DealerShouldHit(config, dealer.cards)
        invariant shoe.Valid() && shoe.Advanced()
        invariant |dealer.cards| >= |old(dealer.cards)| && dealer.cards[..|old(dealer.cards)|] == old(dealer.cards)
        invariant shoe.drawn == old(shoe.drawn) + dealer.cards[|old(dealer.cards)|..]
        invariant !DealerShouldHit(config, old(dealer.cards)) ==> dealer.cards == old(dealer.cards)
        decreases 17 - HardTotal(dealer.cards)
      {
        ghost var previous := dealer.cards;
        var card := shoe.Deal();
        AppendTotals(dealer.cards, card);
        dealer.AddCard(card);
        assert dealer.cards[..|old(dealer.cards)|] == previous[..|old(dealer.cards)|];
      }
    }

    /** The settlement loop, proved to sum every hand's result against the dealer. */
    method ResolveHands(hands: seq<Hand>, dealer: Hand) returns (net: real)
      ensures net == Settlement(Views(hands), dealer.cards)
    {
      net := 0.0;
      var dealerValue := dealer.Value();
      var dealerBusted := IsBusted(dealer.cards);
      ghost var views := Views(hands);
      for i := 0 to |hands|
        invariant net == Settlement(views[..i], dealer.cards)
      {
        var result := HandResult(hands[i], dealerValue, dealerBusted);
        SettleNext(views, i, dealer.cards);
        net := net + result;
      }
      assert views[..|hands|] == views;
    }

    /** One hand's result against the dealer: half the bet lost on a surrender, the bet
        lost on a bust, won when the dealer busts, and otherwise won, lost or pushed by
        comparing values. */
    method HandResult(hand: Hand, dealerValue: int, dealerBusted: bool) returns (result: real)
      ensures result == HandNet(hand.State(), dealerValue, dealerBusted)
    {
      if hand.isSurrendered {
        result := -(hand.bet / 2.0);
      } else if IsBusted(hand.cards) {
        result := -hand.bet;
      } else if dealerBusted {
        result := hand.bet;
      } else {
        var playerValue := hand.Value();
        if playerValue > dealerValue {
          result := hand.bet;
        } else if playerValue < dealerValue {
          result := -hand.bet;
        } else {
          result := 0.0;
        }
      }
    }
  }
}
