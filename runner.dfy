/** A simulation session: rounds are played until the requested number is reached or the
    bankroll falls below the table minimum (backend/simulator/runner.py, `SimulationRunner`). */
module Runner {
  import opened Numbers
  import opened Wrappers
  import opened Actions
  import opened Game
  import opened Results
  import opened FlatBet
  import opened Martingale

  /** The betting half of a strategy: one of the deterministic betting strategies. */
  datatype BettingStrategy =
    | FlatBetting(flat: FlatBetStrategy)
    | MartingaleBetting(martingale: MartingaleStrategy)

  /** The objects a betting strategy updates when it is asked for a bet. */
  function Footprint(betting: BettingStrategy): set<object>
  {
    if betting.MartingaleBetting? then {betting.martingale} else {}
  }

  /** Asks the betting strategy for the next bet. */
  method GetBet(betting: BettingStrategy, bankroll: real, history: seq<HistoryEntry>) returns (bet: real)
    modifies Footprint(betting)
    ensures bet <= bankroll
    ensures betting.FlatBetting? ==> bet == betting.flat.GetBet(bankroll, history)
    ensures betting.MartingaleBetting? ==>
      var m := betting.martingale;
      && m.currentBet == NextCurrentBet(m.baseBet, m.maxBet, old(m.currentBet), history)
      && bet == RMin(m.currentBet, bankroll)
  {
    match betting
    case FlatBetting(flat) =>
      bet := flat.GetBet(bankroll, history);
    case MartingaleBetting(m) =>
      bet := m.GetBet(bankroll, history);
  }

  /** The stored bet of a Martingale bettor; the flat bettor stores none. */
  function Stored(betting: BettingStrategy): real
    reads Footprint(betting)
  {
    if betting.MartingaleBetting? then betting.martingale.currentBet else 0.0
  }

  /** The bet a session places on a balance of `bankroll` after the rounds `history`, when
      the bettor's stored bet was `stored` before the session's first call. */
  function SessionBet(betting: BettingStrategy, stored: real, history: seq<HistoryEntry>, bankroll: real): real
  {
    match betting
    case FlatBetting(flat) => flat.GetBet(bankroll, history)
    case MartingaleBetting(m) => RMin(StoredAfter(m.baseBet, m.maxBet, stored, history), bankroll)
  }

  /** The stored bet a Martingale bettor holds before the call that is passed `history`. */
  function StoredBefore(betting: BettingStrategy, stored: real, history: seq<HistoryEntry>): real
    requires betting.MartingaleBetting?
  {
    if history == [] then stored
    else StoredAfter(betting.martingale.baseBet, betting.martingale.maxBet, stored, history[..|history| - 1])
  }

  /** One round of a session: ask the betting strategy for a bet, then play the round.
      `stored` is the bettor's stored bet before the session's first call. */
  method PlayRound(game: BlackjackGame, betting: BettingStrategy, playing: PlayingOracle, bankroll: real,
                   history: seq<HistoryEntry>, fuel: nat, ghost stored: real)
    returns (bet: real, round: GameResult, finished: bool)
    requires game.Valid() && game !in Footprint(betting) && game.shoe !in Footprint(betting)
    requires betting.MartingaleBetting? ==> betting.martingale.currentBet == StoredBefore(betting, stored, history)
    modifies game, game.shoe, Footprint(betting)
    ensures game.Valid() && bet <= bankroll
    ensures betting.FlatBetting? ==> bet == betting.flat.GetBet(bankroll, history)
    ensures betting.MartingaleBetting? ==>
      var m := betting.martingale;
      && m.currentBet == NextCurrentBet(m.baseBet, m.maxBet, old(m.currentBet), history)
      && bet == RMin(m.currentBet, bankroll)
    ensures finished ==> RoundPromises(game.config, playing, bet, round)
    ensures bet == SessionBet(betting, stored, history, bankroll)
    ensures betting.MartingaleBetting? ==>
      betting.martingale.currentBet == StoredAfter(betting.martingale.baseBet, betting.martingale.maxBet, stored, history)
  {
    bet := GetBet(betting, bankroll, history);
    round, finished := game.PlayHand(bet, playing, fuel);
  }

  /** The table minimum a session stops at: the configured one, 5 without a configuration. */
  function MinBet(config: Option<GameConfig>): real
  {
    if config.Some? then config.value.minBet else 5.0
  }

  /** What a session's record promises: the balances open with the starting bankroll and
      follow each round's net result, round `i` is numbered `i + 1`, was played from a
      balance of at least the table minimum and bet no more than that balance, and the last
      balance is the starting bankroll plus the total net result. */
  predicate RecordedSession(start: real, minBet: real, history: seq<HistoryEntry>, balances: seq<real>)
  {
    && |balances| == |history| + 1
    && balances[0] == start
    && (forall i :: 0 <= i < |history| ==>
         && history[i].handNum == i + 1
         && balances[i] >= minBet
         && history[i].bet <= balances[i]
         && history[i].bankrollAfter == balances[i + 1]
         && balances[i + 1] == balances[i] + history[i].netWin)
    && balances[|history|] == start + TotalNet(history)
  }

  /** Every recorded round kept the game's promises for its bet and the playing strategy. */
  ghost predicate KeptPromises(config: GameConfig, strategy: PlayingOracle, history: seq<HistoryEntry>)
  {
    forall i :: 0 <= i < |history| ==> RoundPromises(config, strategy, history[i].bet, Round(history[i]))
  }

  /** Every bet is the one the betting strategy places on the balance and history of its
      round. */
  predicate BetsFollow(betting: BettingStrategy, stored: real, history: seq<HistoryEntry>, balances: seq<real>)
  {
    && |history| < |balances|
    && forall i :: 0 <= i < |history| ==> history[i].bet == SessionBet(betting, stored, history[..i], balances[i])
  }

  lemma KeepPromises(config: GameConfig, strategy: PlayingOracle, history: seq<HistoryEntry>, entry: HistoryEntry)
    requires KeptPromises(config, strategy, history) && RoundPromises(config, strategy, entry.bet, Round(entry))
    ensures KeptPromises(config, strategy, history + [entry])
  {
    assert forall i :: 0 <= i < |history| ==> (history + [entry])[i] == history[i];
  }

  lemma FollowBet(betting: BettingStrategy, stored: real, history: seq<HistoryEntry>, balances: seq<real>,
                  entry: HistoryEntry, after: real)
    requires BetsFollow(betting, stored, history, balances)
    requires entry.bet == SessionBet(betting, stored, history, balances[|history|])
    ensures BetsFollow(betting, stored, history + [entry], balances + [after])
  {
    var history', balances' := history + [entry], balances + [after];
    forall i | 0 <= i < |history'|
      ensures history'[i].bet == SessionBet(betting, stored, history'[..i], balances'[i])
    {
      assert history'[..i] == history[..i];
      if i < |history| {
        assert history'[i] == history[i] && balances'[i] == balances[i];
      }
    }
  }

  /** Recording one more round played by those rules keeps the record consistent. */
  lemma RecordRound(start: real, minBet: real, history: seq<HistoryEntry>, balances: seq<real>, entry: HistoryEntry)
    requires RecordedSession(start, minBet, history, balances)
    requires balances[|history|] >= minBet && entry.bet <= balances[|history|]
    requires entry.handNum == |history| + 1
    requires entry.bankrollAfter == balances[|history|] + entry.netWin
    ensures RecordedSession(start, minBet, history + [entry], balances + [entry.bankrollAfter])
  {
    var history', balances' := history + [entry], balances + [entry.bankrollAfter];
    assert history'[..|history|] == history;
    forall i | 0 <= i < |history'|
      ensures history'[i].handNum == i + 1 && balances'[i] >= minBet && history'[i].bet <= balances'[i]
      ensures history'[i].bankrollAfter == balances'[i + 1] == balances'[i] + history'[i].netWin
    {
      if i < |history| {
        assert history'[i] == history[i] && balances'[i] == balances[i] && balances'[i + 1] == balances[i + 1];
      }
    }
  }

  /** One pass of the session loop from a balance of at least the table minimum: ask for
      a bet, play the round and, when it finished, record it with the balance after it.
      `stored` is the bettor's stored bet before the session's first call. */
  method PlayAndRecord(game: BlackjackGame, result: SimulationResult, betting: BettingStrategy,
                       playing: PlayingOracle, fuel: nat, minBet: real, ghost stored: real)
    returns (finished: bool)
    requires game.Valid() && game !in Footprint(betting) && game.shoe !in Footprint(betting)
    requires result !in Footprint(betting)
    requires RecordedSession(result.startingBankroll, minBet, result.history, result.bankrollHistory)
    requires result.bankrollHistory[|result.history|] >= minBet
    requires KeptPromises(game.config, playing, result.history)
    requires BetsFollow(betting, stored, result.history, result.bankrollHistory)
    requires betting.MartingaleBetting? ==>
      betting.martingale.currentBet == StoredBefore(betting, stored, result.history)
    modifies game, game.shoe, Footprint(betting), result
    ensures game.Valid()
    ensures finished ==> |result.history| == |old(result.history)| + 1
    ensures !finished ==> result.history == old(result.history) && result.bankrollHistory == old(result.bankrollHistory)
    ensures result.finalBankroll == old(result.finalBankroll) && result.handsPlayed == old(result.handsPlayed)
    ensures finished ==>
      && RecordedSession(result.startingBankroll, minBet, result.history, result.bankrollHistory)
      && KeptPromises(game.config, playing, result.history)
      && BetsFollow(betting, stored, result.history, result.bankrollHistory)
      && (betting.MartingaleBetting? ==>
           betting.martingale.currentBet == StoredBefore(betting, stored, result.history))
  {
    var history := result.history;
    var bankroll := result.bankrollHistory[|history|];
    var bet, round;
    bet, round, finished := PlayRound(game, betting, playing, bankroll, history, fuel, stored);
    if !finished {
      return;
    }
    var entry := HistoryEntry(|history| + 1, bet, round.netWin, round.outcome, round.initialPlayerHand,
                              round.dealerUpcard, round.dealerHand, round.playerHands, round.actionsTaken,
                              bankroll + round.netWin);
    RecordRound(result.startingBankroll, minBet, history, result.bankrollHistory, entry);
    assert Round(entry) == round;
    KeepPromises(game.config, playing, history, entry);
    FollowBet(betting, stored, history, result.bankrollHistory, entry, entry.bankrollAfter);
    result.Record(entry);
    assert result.history[..|result.history| - 1] == history;
  }

  /** The session loop: from the first hand to `numHands`, stop before a round when the
      bankroll is below the table minimum, and otherwise play and record the round. */
  method PlaySession(game: BlackjackGame, result: SimulationResult, betting: BettingStrategy,
                     playing: PlayingOracle, numHands: int, fuel: nat, minBet: real, ghost stored: real)
    returns (finished: bool)
    requires game.Valid() && game !in Footprint(betting) && game.shoe !in Footprint(betting)
    requires result !in Footprint(betting) && result.history == [] && result.bankrollHistory == [result.startingBankroll]
    requires stored == Stored(betting)
    modifies game, game.shoe, Footprint(betting), result
    ensures |result.history| <= Max(numHands, 0)
    ensures RecordedSession(result.startingBankroll, minBet, result.history, result.bankrollHistory)
    ensures finished && |result.history| < numHands ==> result.bankrollHistory[|result.history|] < minBet
    ensures KeptPromises(game.config, playing, result.history)
    ensures BetsFollow(betting, stored, result.history, result.bankrollHistory)
  {
    finished := true;
    var handNum := 1;
    while handNum <= numHands
      invariant game.Valid()
      invariant |result.history| == handNum - 1 <= Max(numHands, 0)
      invariant RecordedSession(result.startingBankroll, minBet, result.history, result.bankrollHistory)
      invariant KeptPromises(game.config, playing, result.history)
      invariant BetsFollow(betting, stored, result.history, result.bankrollHistory)
      invariant betting.MartingaleBetting? ==>
        betting.martingale.currentBet == StoredBefore(betting, stored, result.history)
    {
      if result.bankrollHistory[|result.history|] < minBet {
        break;
      }
      finished := PlayAndRecord(game, result, betting, playing, fuel, minBet, stored);
      if !finished {
        break;
      }
      handNum := handNum + 1;
    }
  }

  class SimulationRunner {
    const gameConfig: Option<GameConfig>

    constructor (gameConfig: Option<GameConfig>)
      ensures this.gameConfig == gameConfig
    {
      this.gameConfig := gameConfig;
    }

    /** Plays up to `numHands` rounds on a fresh game, recording each round and the balance
        after it, and stops before a round when the bankroll is below the table minimum.
        Each round may ask the playing strategy at most `fuel` times; a round that needs
        more ends the session with `finished` false and is not recorded. */
    method Run(betting: BettingStrategy, playing: PlayingOracle, numHands: int, startingBankroll: real, fuel: nat)
      returns (result: SimulationResult, finished: bool)
      requires ShoeConfigOk(gameConfig.GetOr(DefaultConfig()))
      modifies Footprint(betting)
      ensures fresh(result) && result.startingBankroll == startingBankroll
      ensures result.handsPlayed == |result.history| <= Max(numHands, 0)
      ensures RecordedSession(startingBankroll, MinBet(gameConfig), result.history, result.bankrollHistory)
      ensures result.finalBankroll == result.bankrollHistory[|result.history|]
      ensures result.NetResult() == TotalNet(result.history)
      ensures finished && |result.history| < numHands ==> result.finalBankroll < MinBet(gameConfig)
      ensures KeptPromises(gameConfig.GetOr(DefaultConfig()), playing, result.history)
      ensures BetsFollow(betting, old(Stored(betting)), result.history, result.bankrollHistory)
    {
      ghost var stored := Stored(betting);
      var game := new BlackjackGame(gameConfig);
      result := new SimulationResult(startingBankroll);
      finished := PlaySession(game, result, betting, playing, numHands, fuel, MinBet(gameConfig), stored);
      var bankroll := result.bankrollHistory[|result.history|];
      result.finalBankroll := bankroll;
      result.handsPlayed := |result.history|;
    }
  }
}
