/** The record of a simulation session and the statistics read from it
    (backend/simulator/runner.py, `SimulationResult`). Every statistic is a function of
    the recorded history, recomputed whenever it is read. */
module Results {
  import opened Numbers
  import opened Cards
  import opened Hands
  import opened Actions
  import opened Game

  /** One played round as the session records it. */
  datatype HistoryEntry = HistoryEntry(
    handNum: int,
    bet: real,
    netWin: real,
    outcome: Outcome,
    playerInitial: seq<Card>,
    dealerUpcard: Card,
    dealerFinal: HandState,
    playerFinal: seq<HandState>,
    actions: seq<Action>,
    bankrollAfter: real)

  /** The round an entry records, as the game reported it. */
  function Round(entry: HistoryEntry): GameResult
  {
    GameResult(entry.playerFinal, entry.dealerFinal, entry.netWin, entry.outcome, entry.actions,
               entry.dealerUpcard, entry.playerInitial)
  }

  /** Rounds won, lost and pushed: net result above, below and equal to zero. */
  function Wins(history: seq<HistoryEntry>): (n: nat)
    ensures n <= |history|
    ensures n == 0 <==> forall i :: 0 <= i < |history| ==> history[i].netWin <= 0.0
  {
    if history == [] then 0
    else Wins(history[..|history| - 1]) + (if history[|history| - 1].netWin > 0.0 then 1 else 0)
  }

  function Losses(history: seq<HistoryEntry>): (n: nat)
    ensures n <= |history|
    ensures n == 0 <==> forall i :: 0 <= i < |history| ==> history[i].netWin >= 0.0
  {
    if history == [] then 0
    else Losses(history[..|history| - 1]) + (if history[|history| - 1].netWin < 0.0 then 1 else 0)
  }

  function Pushes(history: seq<HistoryEntry>): (n: nat)
    ensures n <= |history|
    ensures n == 0 <==> forall i :: 0 <= i < |history| ==> history[i].netWin != 0.0
  {
    if history == [] then 0
    else Pushes(history[..|history| - 1]) + (if history[|history| - 1].netWin == 0.0 then 1 else 0)
  }

  /** Every round is exactly one of a win, a loss and a push. */
  lemma {:induction false} OutcomeCountsPartition(history: seq<HistoryEntry>)
    ensures Wins(history) + Losses(history) + Pushes(history) == |history|
  {
    if history != [] {
      OutcomeCountsPartition(history[..|history| - 1]);
    }
  }

  /** Percentage of rounds won; 0 before any round. */
  function WinRate(history: seq<HistoryEntry>, handsPlayed: int): (rate: real)
    ensures handsPlayed <= 0 ==> rate == 0.0
    ensures handsPlayed == |history| ==> 0.0 <= rate <= 100.0
  {
    if handsPlayed > 0 then Percent(Wins(history) as real, handsPlayed as real) else 0.0
  }

  /** `part` as a percentage of a positive `whole`. */
  function Percent(part: real, whole: real): (pct: real)
    requires 0.0 < whole
    ensures pct * whole == part * 100.0
    ensures 0.0 <= part ==> 0.0 <= pct
    ensures part <= whole ==> pct <= 100.0
  {
    part / whole * 100.0
  }

  function TotalWagered(history: seq<HistoryEntry>): (total: real)
    ensures (forall i :: 0 <= i < |history| ==> history[i].bet >= 0.0) ==> total >= 0.0
  {
    if history == [] then 0.0 else TotalWagered(history[..|history| - 1]) + history[|history| - 1].bet
  }

  function TotalNet(history: seq<HistoryEntry>): (total: real)
    ensures (forall i :: 0 <= i < |history| ==> history[i].netWin >= 0.0) ==> total >= 0.0
    ensures (forall i :: 0 <= i < |history| ==> history[i].netWin <= 0.0) ==> total <= 0.0
  {
    if history == [] then 0.0 else TotalNet(history[..|history| - 1]) + history[|history| - 1].netWin
  }

  /** Net result as a percentage of the amount wagered; 0 when nothing was wagered. */
  function EvPercent(history: seq<HistoryEntry>): (ev: real)
    ensures TotalWagered(history) <= 0.0 ==> ev == 0.0
    ensures TotalWagered(history) > 0.0 ==> ev * TotalWagered(history) == TotalNet(history) * 100.0
  {
    var wagered := TotalWagered(history);
    if wagered > 0.0 then Percent(TotalNet(history), wagered) else 0.0
  }

  /** The highest balance seen so far, starting from the starting bankroll. */
  function RunningPeak(start: real, balances: seq<real>): real
  {
    if balances == [] then start else RMax(RunningPeak(start, balances[..|balances| - 1]), balances[|balances| - 1])
  }

  /** How far the balance at position `i` lies below the running peak up to and including it. */
  function DrawdownAt(start: real, balances: seq<real>, i: int): real
    requires 0 <= i < |balances|
  {
    RunningPeak(start, balances[..i + 1]) - balances[i]
  }

  /** The largest drawdown along a trajectory, or 0 for an empty one. */
  function MaxDrawdownOf(start: real, balances: seq<real>): (drawdown: real)
    ensures drawdown >= 0.0
  {
    if balances == [] then 0.0
    else RMax(MaxDrawdownOf(start, balances[..|balances| - 1]), DrawdownAt(start, balances, |balances| - 1))
  }

  lemma {:induction false} RunningPeakBounds(start: real, balances: seq<real>)
    ensures RunningPeak(start, balances) >= start
    ensures forall i :: 0 <= i < |balances| ==> RunningPeak(start, balances) >= balances[i]
  {
    if balances != [] {
      RunningPeakBounds(start, balances[..|balances| - 1]);
    }
  }

  /** The maximum drawdown is non-negative, at least every drawdown along the trajectory,
      and (for a non-empty trajectory) equal to one of them. */
  lemma {:induction false} MaxDrawdownBounds(start: real, balances: seq<real>)
    ensures MaxDrawdownOf(start, balances) >= 0.0
    ensures forall i :: 0 <= i < |balances| ==> MaxDrawdownOf(start, balances) >= DrawdownAt(start, balances, i)
    ensures balances != [] ==>
      exists i :: 0 <= i < |balances| && MaxDrawdownOf(start, balances) == DrawdownAt(start, balances, i)
  {
    if balances != [] {
      var n := |balances| - 1;
      var init := balances[..n];
      MaxDrawdownBounds(start, init);
      RunningPeakBounds(start, balances);
      forall i | 0 <= i < n
        ensures DrawdownAt(start, init, i) == DrawdownAt(start, balances, i)
      {
        assert init[..i + 1] == balances[..i + 1];
      }
      assert balances[..n + 1] == balances;
      if MaxDrawdownOf(start, balances) != DrawdownAt(start, balances, n) {
        var j :| 0 <= j < n && MaxDrawdownOf(start, init) == DrawdownAt(start, init, j);
        assert MaxDrawdownOf(start, balances) == DrawdownAt(start, balances, j);
      }
    }
  }

  /** A trajectory that starts at the starting bankroll and never decreases has no drawdown. */
  lemma {:induction false} NonDecreasingNoDrawdown(start: real, balances: seq<real>)
    requires forall i, j :: 0 <= i < j < |balances| ==> balances[i] <= balances[j]
    requires balances != [] ==> start <= balances[0]
    ensures MaxDrawdownOf(start, balances) == 0.0
    ensures balances != [] ==> RunningPeak(start, balances) == balances[|balances| - 1]
  {
    if balances != [] {
      var n := |balances| - 1;
      var init := balances[..n];
      NonDecreasingNoDrawdown(start, init);
      assert balances[..n + 1] == balances;
      assert RunningPeak(start, init) <= balances[n] by {
        if n > 0 {
          assert init[n - 1] == balances[n - 1];
        }
      }
    }
  }

  /** The largest element of a non-empty sequence. */
  function SeqMax(xs: seq<real>): (m: real)
    requires xs != []
    ensures forall i :: 0 <= i < |xs| ==> xs[i] <= m
    ensures exists i :: 0 <= i < |xs| && xs[i] == m
  {
    if |xs| == 1 then xs[0]
    else
      var rest := SeqMax(xs[..|xs| - 1]);
      assert forall i :: 0 <= i < |xs| - 1 ==> xs[..|xs| - 1][i] == xs[i];
      RMax(rest, xs[|xs| - 1])
  }

  /** The highest balance in the trajectory, or the starting bankroll when it is empty. */
  function PeakBankroll(start: real, balances: seq<real>): (peak: real)
    ensures balances == [] ==> peak == start
    ensures forall i :: 0 <= i < |balances| ==> balances[i] <= peak
    ensures balances != [] ==> exists i :: 0 <= i < |balances| && balances[i] == peak
  {
    if balances == [] then start else SeqMax(balances)
  }

  /** A trajectory that opens with the starting bankroll peaks at or above it, and no
      balance lies above its peak. */
  lemma PeakAtLeastStart(start: real, balances: seq<real>)
    requires balances != [] && balances[0] == start
    ensures PeakBankroll(start, balances) >= start
    ensures forall i :: 0 <= i < |balances| ==> balances[i] <= PeakBankroll(start, balances)
  {
  }

  function Bets(history: seq<HistoryEntry>): (bets: seq<real>)
    ensures |bets| == |history| && forall i :: 0 <= i < |history| ==> bets[i] == history[i].bet
  {
    seq(|history|, i requires 0 <= i < |history| => history[i].bet)
  }

  /** The largest bet placed, or 0 before any round. */
  function MaxBet(history: seq<HistoryEntry>): (m: real)
    ensures history == [] ==> m == 0.0
    ensures forall i :: 0 <= i < |history| ==> history[i].bet <= m
    ensures history != [] ==> exists i :: 0 <= i < |history| && history[i].bet == m
  {
    if history == [] then 0.0
    else
      var m := SeqMax(Bets(history));
      assert exists i :: 0 <= i < |history| && Bets(history)[i] == m;
      m
  }

  /** The maximum drawdown as a percentage of the starting bankroll; 0 when that is not
      positive. */
  function MaxDrawdownPercent(start: real, balances: seq<real>): (pct: real)
    ensures start <= 0.0 ==> pct == 0.0
    ensures start > 0.0 ==> pct * start == MaxDrawdownOf(start, balances) * 100.0
    ensures start > 0.0 ==> pct >= 0.0
  {
    MaxDrawdownBounds(start, balances);
    if start > 0.0 then MaxDrawdownOf(start, balances) / start * 100.0 else 0.0
  }

  class SimulationResult {
    const startingBankroll: real
    var finalBankroll: real
    var handsPlayed: int
    var history: seq<HistoryEntry>
    /** Every balance of the session, opening with the starting bankroll. */
    var bankrollHistory: seq<real>

    constructor (startingBankroll: real)
      ensures this.startingBankroll == startingBankroll
      ensures finalBankroll == 0.0 && handsPlayed == 0
      ensures history == [] && bankrollHistory == [startingBankroll]
    {
      this.startingBankroll := startingBankroll;
      finalBankroll := 0.0;
      handsPlayed := 0;
      history := [];
      bankrollHistory := [startingBankroll];
    }

    /** Appends a played round and the balance after it. */
    method Record(entry: HistoryEntry)
      modifies this
      ensures history == old(history) + [entry]
      ensures bankrollHistory == old(bankrollHistory) + [entry.bankrollAfter]
      ensures finalBankroll == old(finalBankroll) && handsPlayed == old(handsPlayed)
    {
      history := history + [entry];
      bankrollHistory := bankrollHistory + [entry.bankrollAfter];
    }

    function NetResult(): real
      reads this
    {
      finalBankroll - startingBankroll
    }

    /** The running-peak loop, proved to compute the maximum drawdown of the trajectory. */
    method MaxDrawdown() returns (maxDrawdown: real)
      ensures maxDrawdown == MaxDrawdownOf(startingBankroll, bankrollHistory)
    {
      var peak := startingBankroll;
      maxDrawdown := 0.0;
      for i := 0 to |bankrollHistory|
        invariant peak == RunningPeak(startingBankroll, bankrollHistory[..i])
        invariant maxDrawdown == MaxDrawdownOf(startingBankroll, bankrollHistory[..i])
      {
        var balance := bankrollHistory[i];
        if balance > peak {
          peak := balance;
        }
        var drawdown := peak - balance;
        if drawdown > maxDrawdown {
          maxDrawdown := drawdown;
        }
        ghost var prefix := bankrollHistory[..i + 1];
        assert prefix[..i] == bankrollHistory[..i] && prefix[..i + 1] == prefix && prefix[i] == balance;
      }
      assert bankrollHistory[..|bankrollHistory|] == bankrollHistory;
    }
  }
}
