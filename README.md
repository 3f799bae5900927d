# Blackjack simulator: engine, strategies and session runner in Dafny

This project models the core of a blackjack simulator and proves properties about it. The core is made of six parts:

- the multi-deck **shoe**, which deals from the end of its card list and reshuffles once the cut card is reached;
- the **hand** valuation, with aces demoted from 11 to 1;
- one **round** of play: the deal, the dealer's peek, player decisions, splits, doubles, surrender, the dealer's turn and settlement;
- the deterministic **basic-strategy** decision table;
- the **flat** and **Martingale** betting strategies;
- the **session runner**, which plays rounds against a bankroll and records a history that the statistics are computed from.

Modules, in dependency order:

| module | file | models |
|---|---|---|
| `Numbers` | numbers.dfy | the larger and smaller of two numbers (`max`, `min`) |
| `Wrappers` | wrappers.dfy | `Option` for the optional arguments |
| `Cards` | cards.dfy | `Suit`, `Rank`, `Card`, `Shoe` (class) |
| `Hands` | hand.dfy | hand valuation (pure), `Hand` (class) |
| `Actions` | actions.dfy | `Action`, the options offered at a decision, the playing-strategy oracle |
| `SmartStrategy` | smart.dfy | the basic-strategy table |
| `Game` | game.dfy | `GameConfig`, `GameResult`, `BlackjackGame` (class) |
| `Results` | results.dfy | history entries, `SimulationResult` (class) and its statistics |
| `FlatBet`, `Martingale` | flat_bet.dfy, martingale.dfy | the two betting strategies |
| `Runner` | runner.dfy | `SimulationRunner` (class) and the session loop |

The code mutates state in place, and the model keeps that form:

- `Shoe`, `Hand`, `BlackjackGame`, `SimulationResult`, `MartingaleStrategy` and `SimulationRunner` are classes. Their methods carry `modifies` clauses.
- The loops stay loops. Four are proved to compute a pure function:
  - the shoe's build loops compute `FullShoe`;
  - the ace-demotion loop computes `HandValue`;
  - the settlement loop computes `Settlement`;
  - the running-peak drawdown loop computes `MaxDrawdownOf`.
- The other loops are proved to keep an invariant or reach an end condition:
  - The walk over a hand list that grows during splits cuts the round's actions into one turn per hand (`Game.TurnsCover`).
  - The decision loop of one hand ends its turn as `Game.TurnOver` says.
  - Every action of a turn is the playing strategy's answer to the decision of that moment, which shows the hand as it then stood; the hand moves from decision to decision as `Game.Stepped` says, and double, split and surrender are offered only until the turn's first hit or granted split (`Game.Consulted`).
  - Every hand's bet is the round's bet, doubled exactly for a doubled hand (`Game.AllStaked`).
  - The dealer's draw loop ends where `Game.DealerShouldHit` is false. Every card it draws comes off the shoe in order.
  - The session loop keeps the session record consistent. Every recorded round keeps the promises of one round (`Game.RoundPromises`), and every bet is the betting strategy's answer (`Runner.BetsFollow`).
- The shoe keeps a ghost record, `drawn`, of every card it has dealt, in order. It also records where the last shuffle fell in that record. The contracts of the deal, hit, double, split and dealer methods say which cards of that record each hand received.
- The playing strategy is a function `Decision -> Action`. A `Decision` holds:
  - a snapshot of the hand;
  - the dealer's upcard;
  - the offered options;
  - the actions already taken in the round.
- `SmartStrategy.GetAction` is one such function.

Behaviour that follows from the code and is stated in the contracts:

- A hand is *soft* when it holds an ace and its all-aces-as-11 total is at most 21 (`Hands.IsSoft`). So A,A (valued 12) and A,A,5 (valued 17) are not soft, even though an ace still counts 11 in each. This follows the code, not its docstring's wording "has ace counted as 11".
- Because of that, a dealer under the hit-soft-17 rule stands on A,A,5 (`Game.DealerSoftSeventeen`).
- Without a dealer peek, a player natural is paid `bet * blackjackPayout` whatever the dealer holds, even a dealer natural. `Game.RoundPromises` states this, and `Game.BlackjackGame.PlayHand` keeps it.
- On the normal path the round's outcome tag stays empty (`Unset`). Only the two early exits set one.
- Between two reshuffles at most `Max(1, 52 * numDecks - cutCard)` cards are dealt (`Cards.Shoe.Valid`). The `Max` matters when the penetration is 1 or more: then every deal reshuffles first and still deals one card.

## Model

| member | source | states |
|---|---|---|
| Cards.PointValue | backend/engine/card.py:13-26 | every rank is worth 2 to 11; exactly the ace is worth 11, and exactly ten, jack, queen and king are worth 10 |
| Cards.Truncate | backend/engine/card.py:59 | Python's `int()`: the integer part of a non-negative number is at most it and less than one below it; a negative number is rounded up toward zero |
| Cards.CutCardRange | backend/engine/card.py:59 | the cut card `int(52·numDecks·penetration)` is non-negative exactly when the product is above −1, so for every penetration above −1/(52·numDecks); it is at most the shoe size when the penetration is at most 1 |
| Cards.LayoutOneDeck | backend/engine/card.py:55-57 | one deck built suit by suit and rank by rank holds every (rank, suit) exactly once |
| Cards.FullShoeCount | backend/engine/card.py:54-57 | a shoe of `decks` decks holds every (rank, suit) exactly `decks` times |
| Cards.BuildDecks | backend/engine/card.py:53-57 | the nested build loops produce exactly `FullShoe(decks)`, and nothing for fewer than one deck |
| Cards.Permute | backend/engine/card.py:58 | the shuffle returns a permutation of its input (same multiset, same length) |
| Cards.Shoe.constructor | backend/engine/card.py:46-50 | a new shoe is shuffled: it holds the full shoe's multiset, and neither since the shuffle nor ever has it dealt a card |
| Cards.Shoe.Shuffle | backend/engine/card.py:52-59 | after a shuffle the shoe holds exactly 52·numDecks cards, each (rank, suit) numDecks times in some order; the cut card is `int(52·numDecks·penetration)`; no card counts as dealt since the shuffle, the record of all dealt cards is unchanged, and the shuffle is marked at its end; the shoe invariant holds |
| Cards.Shoe.NeedsShuffle | backend/engine/card.py:66-67 | with a non-negative cut card, a shoe that does not need a shuffle still holds a card to pop |
| Cards.Shoe.Deal | backend/engine/card.py:61-64 | reshuffles exactly when `NeedsShuffle()` (cards left ≤ cut card) held, and then the card is the first dealt since that shuffle. Otherwise the list was non-empty, the card is its last element and the rest is the list without it. Either way the card is appended to the record of every card dealt, the cut card is unchanged and the shoe invariant is preserved |
| Hands.HandValue | backend/engine/hand.py:16-26 | the value lies between the all-aces-as-1 and the all-aces-as-11 totals and differs from the latter by a multiple of 10; it is the raw total when that is ≤ 21; aces are demoted only while the total exceeds 21; a value above 21 is the all-aces-as-1 total |
| Hands.Hand.Value | backend/engine/hand.py:16-26 | the demotion loop returns exactly `HandValue(cards)` |
| Hands.IsSoft | backend/engine/hand.py:28-32 | a soft hand is valued at its all-aces-as-11 total, which lies between 11 and 21 |
| Hands.IsBusted | backend/engine/hand.py:34-35 | a hand is busted exactly when its total with every ace counted 1 exceeds 21, which takes at least three cards |
| Hands.IsBlackjack | backend/engine/hand.py:37-41 | a natural is exactly two cards, an ace and a ten-valued card, on a hand that did not come from a split |
| Hands.IsPair | backend/engine/hand.py:43-47 | a pair is two cards of the same rank or two ten-valued cards |
| Hands.TotalsBound | backend/engine/hand.py:16-26 | every card adds at least 1 to the all-aces-as-1 total, and every ace adds 11 to the raw total |
| Hands.SoftHands | backend/engine/hand.py:28-32 | a soft hand is valued at its raw total, which is at least 11, and is never a pair |
| Hands.MultiAceHandsAreNotSoft | backend/engine/hand.py:28-32 | A,A is valued 12 and A,A,5 is valued 17, each with an ace still counted 11, yet neither is soft |
| Hands.TwoCardTwentyOne | backend/engine/hand.py:37-41 | two cards are worth 21 exactly when one is an ace and the other is worth ten |
| Hands.PairValue | backend/engine/hand.py:43-47 | a pair is worth twice its card's value, except a pair of aces (12); a pair is never soft |
| Hands.Hand.constructor | backend/engine/hand.py:6-11 | a new hand has no cards, bet 0 and all three flags false |
| Hands.Hand.AddCard | backend/engine/hand.py:13-14 | appends exactly one card at the end; bet and flags unchanged |
| SmartStrategy.UpcardValue | backend/strategies/playing/smart.py:11-15 | the upcard is looked up at its point value, an ace as 11 |
| SmartStrategy.GetAction | backend/strategies/playing/smart.py:7-109 | every answer is an action the engine accepts with the options offered, so the refused-request branch is never taken |
| SmartStrategy.PairRowsCoverEveryPair | backend/strategies/playing/smart.py:18-49 | the pair rows answer for every pair, so a splittable pair never falls through |
| SmartStrategy.SplitOnlyWhenOffered | backend/strategies/playing/smart.py:18-49 | SPLIT is returned only for a pair with a split offered |
| SmartStrategy.DoubleOnlyWhenOffered | backend/strategies/playing/smart.py:38-106 | DOUBLE is returned only when a double is offered |
| SmartStrategy.SurrenderOnlyWhenOffered | backend/strategies/playing/smart.py:76-89 | SURRENDER is returned only when offered, for a hard hand, and only for 16 against 9, 10 or ace, or 15 against a ten |
| SmartStrategy.HighTotalsStand | backend/strategies/playing/smart.py:52-77 | soft 19 or more stands; hard 17 or more stands unless the hand is a splittable pair |
| SmartStrategy.PairRules | backend/strategies/playing/smart.py:18-29 | with a split offered, aces and eights split and ten-valued pairs stand |
| SmartStrategy.ElevenAndLowTotals | backend/strategies/playing/smart.py:98-109 | hard 11 doubles if offered and hits otherwise; totals 4 to 8 hit unless the hand is a splittable pair |
| Game.CanDouble | backend/engine/game.py:205-217 | a hand that may double has two cards and is not busted; a two-card 10 or 11 may always double, under every `doubleOn` setting, unless it is a split hand with double-after-split off |
| Game.CanDoubleRules | backend/engine/game.py:205-217 | doubling needs exactly two cards; a split hand cannot double with double-after-split off; "10-11" admits only 10 and 11, "9-11" only 9 to 11, and any other rule string admits every total |
| Game.LegalOptions | backend/engine/game.py:131-135 | nothing is offered after the first decision; a double needs two cards; a split needs a pair and fewer than `maxHands` hands; surrender needs the rule on and a hand that did not come from a split |
| Game.DealerShouldHit | backend/engine/game.py:219-226 | a dealer that hits has at most 17 and is not busted; a dealer always hits 16 or less |
| Game.DealerStopRule | backend/engine/game.py:219-226 | a dealer that stops has at least 17 and not a soft 17 under the soft-17 rule; a dealer that hits has an all-aces-as-1 total of at most 17 |
| Game.DealerSoftSeventeen | backend/engine/game.py:219-226 | under the soft-17 rule the dealer hits A,6 but stands on A,A,5 |
| Game.HandNet | backend/engine/game.py:238-262 | one hand's result is −bet/2, −bet, 0 or +bet, and lies within ±bet for a non-negative bet |
| Game.HandNetRules | backend/engine/game.py:238-262 | surrender costs half the bet; a bust costs the bet even when the dealer busts; otherwise a dealer bust pays the bet, and else the higher total wins the bet and equal totals push |
| Game.Settlement | backend/engine/game.py:228-266 | when every hand busted without surrendering the round loses the sum of the bets; when the dealer busts and no hand busted or surrendered it wins that sum |
| Game.SettlementBounds | backend/engine/game.py:228-266 | a round never wins or loses more than the sum of its hands' bets |
| Game.ExtendTurns | backend/engine/game.py:99-104 | a hand list whose actions are cut into finished turns stays so when a surrendered hand, or a hand whose turn ended, is added with the actions of its turn |
| Game.ConsultedEach | backend/engine/game.py:128-203 | a turn consulted as a whole is consulted decision by decision: the k-th action is the strategy's answer to the k-th decision, whose options are those of the hand shown with the first-decision flag still set exactly when none of the first k actions was a hit or a granted split |
| Game.ConsultedShows | backend/engine/game.py:130-203 | the hands a consulted turn showed the strategy are the hand's real states: the first decision shows the hand as the turn began, each later decision the hand as the action before it left it (`Stepped`: unchanged after a stand or a refused request, one more card after a hit, doubled bet and one more card after a granted double, a new second card after a granted split, the flag after a granted surrender), and the last action leaves the hand as the turn ends |
| Game.ExtendConsulted | backend/engine/game.py:128-203 | appending the strategy's answer to one more decision, which showed the hand as the turn had left it and took it to its next state, keeps the turn consulted; the first-decision flag after it is the flag before it, cleared by a hit or a granted split |
| Game.WidenConsulted | backend/engine/game.py:133 | a turn consulted with hand counts in a range stays consulted for any wider range |
| Game.ExtendConsultedTurns | backend/engine/game.py:99-104 | adding one more consulted turn to a list of consulted turns, one per hand, keeps every earlier turn consulted with its marks and adds the new one |
| Game.CloseTurn | backend/engine/game.py:99-104 | closing the next hand's turn, consulted from the state it began in to the state it ends in and staked at its starting bet, keeps every earlier turn finished, consulted and staked, and adds this one |
| Game.SettleNext | backend/engine/game.py:234-262 | the settlement of the first i+1 hands is that of the first i plus the i-th hand's net result |
| Game.BlackjackGame.constructor | backend/engine/game.py:36-40 | the game uses the given configuration or the default one, with a fresh shuffled shoe over its decks and penetration that has dealt no card |
| Game.BlackjackGame.PlayHand | backend/engine/game.py:42-124 | the deal takes the next four cards from the shoe in the order player, dealer, player, dealer; the dealer's later cards are the last cards the shoe dealt. With the shuffle-every-hand rule, the shoe's last shuffle came after every card of earlier rounds. A dealer natural seen by the peek ends the round with no decisions: push and 0 against a player natural, else loss and −bet. Otherwise a player natural is paid bet·payout with no decisions. Otherwise the outcome stays empty; the round's actions split into one finished turn per hand, in list order (each busted, surrendered, or ended by a stand or a granted double). Every action is the strategy's answer to a decision showing the upcard, the actions so far, the hand as it then stood and the options `LegalOptions` gives that hand; double, split and surrender are offered only until a hit or a granted split has been taken in that turn. The first hand's turn starts from the dealt hand and every later hand's from a two-card split hand on the bet; each turn ends in the hand as settled. Every hand's bet is 2·bet if it was doubled and bet otherwise; the net result is the settlement of all hands against the dealer's final cards. The dealer stands at the end if some hand is live, else keeps two cards. At most max(1, `maxHands`) hands are played |
| Game.BlackjackGame.PeekAndPlay | backend/engine/game.py:70-124 | after the deal: a dealer natural seen by the peek, or else a player natural, ends the round at once with the outcome and net result `RoundPromises` names; otherwise the round is played out and, when finished, keeps every promise of a played round: finished turns, the first from the dealt hand, whose every action is the strategy's answer about the hand as it then stood and the options of the moment, every bet bet or 2·bet as the hand was doubled, and the settlement; the dealer keeps the two dealt cards first, and any later cards are the shoe's last deals |
| Game.BlackjackGame.DealRound | backend/engine/game.py:51-59 | the initial deal takes four cards off the shoe in the order player, dealer, player, dealer; the dealer's second card is the upcard; the player's hand carries the bet |
| Game.BlackjackGame.DealPass | backend/engine/game.py:55-58 | one pass of the deal takes the next card for the player and then the next for the dealer |
| Game.BlackjackGame.PlayOut | backend/engine/game.py:98-124 | after the player's turns, which split the round's actions into one finished turn per hand, every action the strategy's answer about the hand as it then stood, the first turn starting from the hand as dealt (`PlayedTurns`), and leave every hand's bet at the dealt bet, doubled exactly for doubled hands (`AllStaked`), the dealer draws only if some hand is neither busted nor surrendered, each card drawn being the next the shoe deals; it ends on a total it stands on, and the round's net result is the settlement |
| Game.BlackjackGame.DealerAndSettle | backend/engine/game.py:106-120 | the dealer plays only when some hand is neither busted nor surrendered, and then ends standing; otherwise the dealer's cards are unchanged. The cards added are exactly the shoe's deals meanwhile, and the net result is the settlement of the hands against the dealer's final cards |
| Game.BlackjackGame.PlayPlayerHands | backend/engine/game.py:99-104 | every hand of the growing list is played, in order: the round's actions split into consecutive turns, one per hand, and each turn ends with the hand busted, surrendered, or its last action a stand or a granted double. Each turn's actions are the strategy's answers about the hand as it stood at each decision (`TurnsConsulted`): the first hand's turn starts from the hand as it came, every later hand's from a two-card split hand on the same bet, and each ends in the hand as returned; turn j was decided with between j+1 and `maxHands` hands in the list. Every hand's bet is the dealt bet, doubled exactly when the hand was doubled. The list starts with the dealt hand, adds only new hands, and never exceeds `maxHands` hands |
| Game.BlackjackGame.PlayTurn | backend/engine/game.py:100-104 | one pass over the hand list: a surrendered hand is skipped with an empty turn, any other hand is played; the turn is recorded as consulted from the state the hand was in when its turn came to the state it ends in, the turns stay finished and consulted, the stakes stay as dealt or doubled, and every later hand still stands as a two-card split hand on the bet (or, for the first hand, as dealt) |
| Game.BlackjackGame.PlayPlayerHand | backend/engine/game.py:126-203 | one hand's turn only appends to the hand list and the action record. Every action appended is the strategy's answer to a decision showing the upcard, the actions before it and the hand as it then stood: the hand as it came for the first decision, and for each later one the hand as the action before it left it; the options are those `LegalOptions` gives that hand, with double, split and surrender only while no hit and no granted split has been taken in the turn (`Consulted`). A finished turn leaves the hand busted, or ends with a stand, a granted double or a granted surrender. The hand's bet is doubled exactly when the hand was doubled, and every hand split off is a two-card split hand on the hand's bet, neither doubled nor surrendered |
| Game.BlackjackGame.Decide | backend/engine/game.py:130-203 | one pass of the decision loop appends exactly one action and one recorded decision to the turn and keeps what came before; that decision shows the hand as it stood before the pass, and the action is the strategy's answer to it; the turn stays consulted up to the hand's new state, the first-decision flag equals `StillFirst` of the turn, the hand's stake is kept, and hands split off are two-card split hands on it |
| Game.BlackjackGame.PlayerDecision | backend/engine/game.py:130-203 | the options offered are `LegalOptions` of the hand before the decision; the strategy's answer to those options is recorded as the round's next action; its effect on the hand, the hand list and the shoe is `Carried`, as for `CarryOut`; the turn stops exactly on a stand, a granted double or a granted surrender; the first-decision flag survives only a refused action, a stand, a granted double or a granted surrender; only a granted double doubles the bet, and appended hands are two-card split hands on the old bet |
| Game.BlackjackGame.CarryOut | backend/engine/game.py:141-203 | the action's effect (`Carried`): on the hand itself as `Stepped` says, so a double, split or surrender not offered changes neither hand nor shoe; stand changes nothing and stops; a hit adds the shoe's next card; a granted double doubles the bet and adds the next card; a granted split appends one new hand holding the old second card, both hands flagged split with two cards and the same bet, dealt their second cards in that order; a granted surrender sets the flag. The turn stops exactly on a stand, a granted double or a granted surrender. The first-decision flag is cleared exactly by a hit or a granted split (`EndsFirstDecision`) |
| Game.BlackjackGame.HitHand | backend/engine/game.py:146-152 | a hit adds exactly one card, the next the shoe deals; bet and flags unchanged |
| Game.BlackjackGame.DoubleDown | backend/engine/game.py:154-164 | a double doubles the bet exactly, sets the doubled flag and adds exactly one card, the next the shoe deals |
| Game.BlackjackGame.SplitHand | backend/engine/game.py:170-182 | a split produces one new hand whose first card is the original's second card. Both hands are flagged split, carry the original bet and hold two cards. The shoe deals the original hand's new second card first, then the new hand's |
| Game.BlackjackGame.PlayDealer | backend/engine/game.py:107-113 | the draw loop ends (the all-aces-as-1 total rises with every card) with the dealer standing; the cards it appends are exactly the cards the shoe dealt meanwhile, in order; it draws none when the dealer already stands |
| Game.BlackjackGame.ResolveHands | backend/engine/game.py:228-266 | the settlement loop returns exactly `Settlement` of the hands against the dealer's cards, the sum of every hand's `HandNet` |
| Results.Wins | backend/simulator/runner.py:16-18 | at most one win per round, and none exactly when no round's net result is positive |
| Results.Losses | backend/simulator/runner.py:20-22 | at most one loss per round, and none exactly when no round's net result is negative |
| Results.Pushes | backend/simulator/runner.py:24-26 | at most one push per round, and none exactly when no round's net result is zero |
| Results.OutcomeCountsPartition | backend/simulator/runner.py:16-26 | wins, losses and pushes add up to the number of rounds recorded |
| Results.WinRate | backend/simulator/runner.py:28-30 | the win rate is 0 before any round and between 0 and 100 over the recorded rounds |
| Results.TotalWagered | backend/simulator/runner.py:32-34 | the total wagered is non-negative when every bet is |
| Results.TotalNet | backend/simulator/runner.py:38 | the total net result is non-negative when no round lost and non-positive when no round won |
| Results.EvPercent | backend/simulator/runner.py:36-38 | EV is 0 when nothing was wagered, else the total net result per amount wagered, times 100 |
| Results.RunningPeakBounds | backend/simulator/runner.py:41-46 | the running peak is at least the starting bankroll and every balance seen |
| Results.MaxDrawdownOf | backend/simulator/runner.py:40-50 | the maximum drawdown is never negative |
| Results.MaxDrawdownBounds | backend/simulator/runner.py:40-50 | the maximum drawdown is non-negative, at least the drawdown at every position, and equal to one of them |
| Results.NonDecreasingNoDrawdown | backend/simulator/runner.py:40-50 | a trajectory that never decreases from the starting bankroll has maximum drawdown 0 |
| Results.SimulationResult.MaxDrawdown | backend/simulator/runner.py:40-50 | the running-peak loop returns exactly `MaxDrawdownOf` the recorded trajectory |
| Results.PeakBankroll | backend/simulator/runner.py:52-54 | the starting bankroll for an empty trajectory; otherwise at least every balance and equal to one of them |
| Results.PeakAtLeastStart | backend/simulator/runner.py:52-54 | a trajectory opening with the starting bankroll peaks at or above it, and no balance exceeds the peak |
| Results.MaxBet | backend/simulator/runner.py:56-58 | the largest bet is 0 without rounds; otherwise it is at least every bet and is one of them |
| Results.MaxDrawdownPercent | backend/simulator/runner.py:60-62 | 0 for a non-positive starting bankroll, else the maximum drawdown per starting bankroll times 100, which is non-negative |
| Results.SimulationResult.NetResult | backend/simulator/runner.py:12-14 | the final bankroll less the starting bankroll; `Runner.SimulationRunner.Run` proves it equal to the total net result of the history |
| Results.SimulationResult.constructor | backend/simulator/runner.py:5-10 | a new result has no history and a trajectory holding only the starting bankroll |
| Results.SimulationResult.Record | backend/simulator/runner.py:117-129 | a played round is appended to the history and its closing balance to the trajectory |
| FlatBet.FlatBetStrategy.GetBet | backend/strategies/betting/flat_bet.py:12-13 | the bet is the configured amount or the bankroll, whichever is smaller: never above either, and the full amount whenever the bankroll covers it |
| FlatBet.NewFlatBet | backend/strategies/betting/flat_bet.py:8-10 | the configured amount, 10 when none is given |
| FlatBet.FlatBetIgnoresHistory | backend/strategies/betting/flat_bet.py:12-13 | the bet does not depend on the history |
| Martingale.NextCurrentBet | backend/strategies/betting/martingale.py:14-20 | the stored bet after a call is the base bet or at most the maximum bet |
| Martingale.NextBetRules | backend/strategies/betting/martingale.py:14-20 | an empty history or a last round that won or pushed resets the stored bet to the base bet; a last round that lost stores min(2·stored bet, max bet) |
| Martingale.CurrentBetInRange | backend/strategies/betting/martingale.py:10-20 | with 0 < base ≤ max, a stored bet within [base, max] stays within it |
| Martingale.StoredInRange | backend/strategies/betting/martingale.py:10-20 | with 0 < base ≤ max and a starting stored bet within [base, max], the stored bet stays within it over any sequence of calls |
| Martingale.CappedDoubling | backend/strategies/betting/martingale.py:14-20 | capping at every loss of a streak gives the same stored bet as doubling k times and capping once |
| Martingale.LossStreak | backend/strategies/betting/martingale.py:14-20 | after k straight losses the stored bet is min(base·2^k, max) |
| Martingale.DoublesStoredBet | backend/strategies/betting/martingale.py:20-23 | doubling starts from the stored bet, not from the bankroll-capped bet returned: base 10 and a bankroll of 15 return 15 after a loss but store 20, and the next loss stores 40 |
| Martingale.MartingaleStrategy.constructor | backend/strategies/betting/martingale.py:8-12 | base 10 and maximum 500 unless configured; the stored bet starts at the base bet |
| Martingale.MartingaleStrategy.GetBet | backend/strategies/betting/martingale.py:14-23 | the stored bet moves as `NextCurrentBet` says, and the bet returned is min(stored bet, bankroll), never above the bankroll |
| Martingale.MartingaleStrategy.Reset | backend/strategies/betting/martingale.py:25-26 | the stored bet returns to the base bet |
| Runner.GetBet | backend/simulator/runner.py:113 | the betting strategy's answer, never above the bankroll |
| Runner.PlayRound | backend/simulator/runner.py:113-114 | the bet is the betting strategy's answer: the flat amount capped by the bankroll, or the Martingale stored bet after every call of the session so far, capped by the bankroll; a round played to the end keeps every promise of `PlayHand` for that bet and the session's playing strategy |
| Runner.KeepPromises | backend/simulator/runner.py:114-128 | recording a round that keeps the promises of one round keeps them for the whole history |
| Runner.FollowBet | backend/simulator/runner.py:113-128 | recording a round placed on the strategy's bet keeps every recorded bet equal to the strategy's answer on its round's balance and history |
| Runner.RecordRound | backend/simulator/runner.py:107-129 | recording a round played by the session's rules keeps the session record consistent |
| Runner.PlayAndRecord | backend/simulator/runner.py:113-129 | one pass of the session loop either records exactly one round and keeps the session record, the per-round promises and the bets consistent, or records nothing |
| Runner.PlaySession | backend/simulator/runner.py:107-129 | the session loop plays at most the requested number of rounds, keeps the session record consistent, every round's promises and every bet the strategy's answer; a completed session that stopped early ended below the table minimum |
| Runner.SimulationRunner.constructor | backend/simulator/runner.py:91-93 | the runner keeps its optional configuration |
| Runner.SimulationRunner.Run | backend/simulator/runner.py:95-137 | hands played equals the history length and is at most the number requested. The trajectory has one more entry than the history and opens with the starting bankroll; entry i+1 is round i's closing balance and equals the entry before plus its net result. Rounds are numbered 1, 2, …; each was played from a balance of at least the table minimum (5 without a configuration), on a bet no larger than that balance. Every recorded round keeps the promises of `PlayHand` for its bet and the playing strategy (deal order, finished turns of strategy answers for every hand, stakes, settlement, the dealer's stopping rule), and every bet is the betting strategy's answer on that round's balance and history: min(amount, balance) for a flat bet, min(stored bet, balance) for Martingale. The final bankroll is the starting bankroll plus the total net result, which is the session's net result. A completed session that played fewer rounds than requested ended below the table minimum |

## Left out

- Console output is not modelled: the `verbose` printing of a round, `print_summary` and the progress lines of a session.
- `export_to_csv` is not modelled; it is file output.
- Only the shuffle's result being a permutation is modelled (`Cards.Permute` leaves the order open). Its uniformity and any statistical claim about results are not.
- Money and penetration are exact reals, so floating-point rounding is not modelled.
- The interactive manual strategy and the random playing and betting strategies are not modelled. They are console input or draws from a random source.
- The abstract strategy interfaces are not modelled. A playing strategy is a function of the `Decision`; stateful playing strategies are out of scope.
- The `Strategy` aggregator is the pair of a `BettingStrategy` and a playing oracle passed to `Run`.
- `Game.BlackjackGame.PlayHand`, `Game.BlackjackGame.PlayPlayerHand` and `Runner.SimulationRunner.Run` take a `fuel` bound on strategy calls per round. The source loops forever when a strategy keeps requesting a refused action. The model instead stops with `finished` false, and a round that stops this way is not recorded. Nothing is promised about the settlement of such a round. A strategy that never asks for a refused action, such as `SmartStrategy.GetAction`, never wastes a call.
- Cards.Shoe.constructor: requires at least one deck and a penetration above −1/(52·numDecks), so that the cut card is not negative. With fewer decks, or a penetration at or below −1/(52·numDecks), the source eventually pops from an empty list, and that error path is not modelled.
- Game.BlackjackGame.constructor: requires the same of the configuration it builds its shoe from (`Game.ShoeConfigOk`), for the same reason.
- Runner.SimulationRunner.Run: requires the same of the game configuration it builds its game from (`Game.ShoeConfigOk`), for the same reason.
- Game.BlackjackGame.PlayHand: at the round level, a split hand's turn is known to start from a two-card split hand on the round's bet, not from the particular cards it received; which earlier hand it was split from, and that its first card is that hand's former second card, are stated per decision (`Game.BlackjackGame.CarryOut`) but not carried up to the round.
- Game.BlackjackGame.PeekAndPlay: the same holds of the rounds it plays out: a split hand's starting cards are not tied to the hand it was split from.
- Game.BlackjackGame.PlayOut: the same: a split hand's starting cards are not tied to the hand it was split from.
- Game.BlackjackGame.PlayPlayerHands: the same: a split hand's starting cards are not tied to the hand it was split from; and the number of hands the list held at each decision is bounded (at least the hand's position plus one, at most `maxHands`), not pinned.
- Game.BlackjackGame.PlayTurn: the same two gaps as `Game.BlackjackGame.PlayPlayerHands`, for the one turn it closes.
- Game.BlackjackGame.PlayPlayerHand: the number of hands the list held at each decision is bounded by the list's length before and after the turn, not pinned; a split-off hand is known to be a two-card split hand on the hand's bet, not which cards it holds.
- Cards.Shoe.Valid: the bound on cards dealt between reshuffles is `Max(1, 52 * numDecks - cutCard)`, not `52 * numDecks - cutCard`. The plain bound does not hold once the penetration reaches 1.
- Game.BlackjackGame.PlayHand: under the shuffle-every-hand rule it promises only that the shoe's last shuffle came after every card of earlier rounds. It does not say that this shuffle came before the round's first deal, since a reshuffle at the cut card later in the round also meets the promise.
- Game.BlackjackGame.PlayHand: that the cards in all hands and in the shoe together make up the full shoe is stated only for the shoe's own record (`Cards.Shoe.Valid`), not across the hands of a round.
- Martingale.LossStreak: requires base ≤ max and max ≥ 0. With a base above the maximum, the first bet of a streak is the uncapped base.
- `resplit_aces` and `hit_split_aces` are carried in `GameConfig` but never read, as in the source.
- The round's `initial_player_hand` and the history's card fields are strings in the source; here they are cards and hand snapshots. Card and hand display formats are not modelled.
- `FlatBetStrategy.reset` does nothing in the source. The flat strategy is a value with no state here, so it has no reset.
- The shoe's records of dealt cards (`drawn`, `dealt`, `shuffledAt`) are ghost fields. Dafny would let any method that may modify the shoe assign them, so the promises built on them rely on the model assigning them only in the shoe's own methods, as it does.
