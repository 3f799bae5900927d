/** The flat betting strategy (backend/strategies/betting/flat_bet.py): the same bet every
    round, capped by the bankroll. */
module FlatBet {
  import opened Numbers
  import opened Wrappers
  import opened Results

  datatype FlatBetStrategy = FlatBetStrategy(betAmount: real)
  {
    /** The configured amount, or the whole bankroll when that is smaller; the history is
        not consulted. */
    function GetBet(bankroll: real, history: seq<HistoryEntry>): (bet: real)
      ensures bet <= bankroll && bet <= betAmount
      ensures bet == bankroll || bet == betAmount
      ensures bankroll >= betAmount ==> bet == betAmount
    {
      RMin(betAmount, bankroll)
    }
  }

  /** A flat bettor over a configured amount, 10 when none is configured. */
  function NewFlatBet(betAmount: Option<real>): (s: FlatBetStrategy)
    ensures betAmount.None? ==> s.betAmount == 10.0
    ensures betAmount.Some? ==> s.betAmount == betAmount.value
  {
    FlatBetStrategy(betAmount.GetOr(10.0))
  }

  /** Two histories give the same bet. */
  lemma FlatBetIgnoresHistory(s: FlatBetStrategy, bankroll: real, h1: seq<HistoryEntry>, h2: seq<HistoryEntry>)
    ensures s.GetBet(bankroll, h1) == s.GetBet(bankroll, h2)
  {
  }
}
