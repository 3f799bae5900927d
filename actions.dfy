/** What the engine and a playing strategy exchange at each decision point
    (backend/strategies/base_strategy.py). */
module Actions {
  import opened Cards
  import opened Hands

  datatype Action = Hit | Stand | Double | Split | Surrender

  /** The `game_state` a strategy is shown: which of the optional actions are legal now. */
  datatype Options = Options(canDouble: bool, canSplit: bool, canSurrender: bool)

  /** What a strategy is asked with: the hand, the dealer's upcard and the options.
      `taken` lists the actions already taken this round; it stands in for whatever
      private state a strategy object keeps between calls. */
  datatype Decision = Decision(hand: HandState, dealerUpcard: Card, options: Options, taken: seq<Action>)

  /** A playing strategy, seen by the engine as a function from decisions to actions. */
  type PlayingOracle = Decision -> Action

  /** Whether the engine carries out `a` under `options`; a double, split or surrender
      that is not offered makes the engine ask again instead. */
  predicate Permitted(a: Action, options: Options)
  {
    match a
    case Hit => true
    case Stand => true
    case Double => options.canDouble
    case Split => options.canSplit
    case Surrender => options.canSurrender
  }
}
