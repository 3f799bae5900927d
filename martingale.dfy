/** The Martingale betting strategy (backend/strategies/betting/martingale.py): double the
    stored bet after a loss, capped at a maximum; return to the base bet after a win or a
    push. */
module Martingale {
  import opened Numbers
  import opened Wrappers
  import opened Cards
  import opened Hands
  import opened Game
  import opened Results

  /** The stored bet after one call: the base bet on an empty history or after a round
      that did not lose, else the doubled stored bet capped at `maxBet`. */
  function NextCurrentBet(baseBet: real, maxBet: real, currentBet: real, history: seq<HistoryEntry>): (next: real)
    ensures next == baseBet || next <= maxBet
  {
    if history == [] || history[|history| - 1].netWin >= 0.0 then baseBet
    else RMin(currentBet * 2.0, maxBet)
  }

  /** An empty history and a last round that won or pushed both reset the stored bet to the
      base bet; only a last round that lost doubles it. */
  lemma NextBetRules(baseBet: real, maxBet: real, currentBet: real, history: seq<HistoryEntry>)
    ensures history == [] ==> NextCurrentBet(baseBet, maxBet, currentBet, history) == baseBet
    ensures history != [] && history[|history| - 1].netWin >= 0.0 ==>
      NextCurrentBet(baseBet, maxBet, currentBet, history) == baseBet
    ensures history != [] && history[|history| - 1].netWin < 0.0 ==>
      NextCurrentBet(baseBet, maxBet, currentBet, history) == RMin(2.0 * currentBet, maxBet)
  {
  }

  /** The stored bet stays between the base bet and the maximum when it starts there. */
  lemma CurrentBetInRange(baseBet: real, maxBet: real, currentBet: real, history: seq<HistoryEntry>)
    requires 0.0 < baseBet <= maxBet && baseBet <= currentBet <= maxBet
    ensures baseBet <= NextCurrentBet(baseBet, maxBet, currentBet, history) <= maxBet
  {
  }

  /** The stored bet after a session's calls, which were passed `history[..0]`,
      `history[..1]`, ..., `history` in turn, starting from a stored bet of `start`. */
  function StoredAfter(baseBet: real, maxBet: real, start: real, history: seq<HistoryEntry>): real
  {
    var before := if history == [] then start else StoredAfter(baseBet, maxBet, start, history[..|history| - 1]);
    NextCurrentBet(baseBet, maxBet, before, history)
  }

  /** However a session goes, the stored bet never leaves [base bet, maximum]. */
  lemma {:induction false} StoredInRange(baseBet: real, maxBet: real, start: real, history: seq<HistoryEntry>)
    requires 0.0 < baseBet <= maxBet && baseBet <= start <= maxBet
    ensures baseBet <= StoredAfter(baseBet, maxBet, start, history) <= maxBet
  {
    if history == [] {
      CurrentBetInRange(baseBet, maxBet, start, history);
    } else {
      var before := StoredAfter(baseBet, maxBet, start, history[..|history| - 1]);
      StoredInRange(baseBet, maxBet, start, history[..|history| - 1]);
      CurrentBetInRange(baseBet, maxBet, before, history);
    }
  }

  function Pow2(k: nat): (p: nat)
    ensures p >= 1
  {
    if k == 0 then 1 else 2 * Pow2(k - 1)
  }

  /** The stored bet after `k` losses in a row that follow a base-bet round. */
  function BetAfterLosses(baseBet: real, maxBet: real, k: nat): real
  {
    if k == 0 then baseBet else NextCurrentBet(baseBet, maxBet, BetAfterLosses(baseBet, maxBet, k - 1), [LostRound()])
  }

  /** A recorded round that lost one unit, the only part of the history the strategy reads. */
  function LostRound(): HistoryEntry
  {
    HistoryEntry(1, 1.0, -1.0, Loss, [], Card(Two, Hearts), HandState([], 0.0, false, false, false), [], [], 0.0)
  }

  lemma LossDoubles(baseBet: real, maxBet: real, currentBet: real)
    ensures NextCurrentBet(baseBet, maxBet, currentBet, [LostRound()]) == RMin(currentBet * 2.0, maxBet)
  {
    assert [LostRound()][0].netWin < 0.0;
  }

  /** Capping before or after doubling gives the same stored bet. */
  lemma DoubleCapped(x: real, cap: real)
    requires 0.0 <= cap
    ensures RMin(RMin(x, cap) * 2.0, cap) == RMin(x * 2.0, cap)
  {
  }

  /** `x` doubled `k` times. */
  function Doubled(x: real, k: nat): real
  {
    if k == 0 then x else Doubled(x, k - 1) * 2.0
  }

  lemma {:induction false} DoubledIsPow2(x: real, k: nat)
    ensures Doubled(x, k) == x * (Pow2(k) as real)
  {
    if k > 0 {
      var q := Pow2(k - 1) as real;
      DoubledIsPow2(x, k - 1);
      assert Pow2(k) as real == 2.0 * q;
      assert x * (2.0 * q) == (x * q) * 2.0;
    }
  }

  /** Each loss doubles the stored bet and caps it; capping once at the end is the same. */
  lemma {:induction false} CappedDoubling(baseBet: real, maxBet: real, k: nat)
    requires baseBet <= maxBet && 0.0 <= maxBet
    ensures BetAfterLosses(baseBet, maxBet, k) == RMin(Doubled(baseBet, k), maxBet)
  {
    if k > 0 {
      CappedDoubling(baseBet, maxBet, k - 1);
      LossDoubles(baseBet, maxBet, BetAfterLosses(baseBet, maxBet, k - 1));
      DoubleCapped(Doubled(baseBet, k - 1), maxBet);
    }
  }

  /** After `k` straight losses the stored bet is base * 2^k, capped at the maximum. */
  lemma LossStreak(baseBet: real, maxBet: real, k: nat)
    requires baseBet <= maxBet && 0.0 <= maxBet
    ensures BetAfterLosses(baseBet, maxBet, k) == RMin(baseBet * (Pow2(k) as real), maxBet)
  {
    CappedDoubling(baseBet, maxBet, k);
    DoubledIsPow2(baseBet, k);
  }

  /** Doubling starts from the stored bet, not from the bankroll-capped bet returned:
      with base 10 and a bankroll of 15, a loss stores 20 and returns 15, and the next
      loss stores 40. */
  lemma DoublesStoredBet()
    ensures var stored := NextCurrentBet(10.0, 500.0, 10.0, [LostRound()]);
      stored == 20.0 && RMin(stored, 15.0) == 15.0 && NextCurrentBet(10.0, 500.0, stored, [LostRound()]) == 40.0
  {
  }

  class MartingaleStrategy {
    const baseBet: real
    const maxBet: real
    var currentBet: real

    /** A bettor over the configured base and maximum bets, 10 and 500 when not configured. */
    constructor (baseBet: Option<real>, maxBet: Option<real>)
      ensures this.baseBet == baseBet.GetOr(10.0) && this.maxBet == maxBet.GetOr(500.0)
      ensures currentBet == this.baseBet
    {
      this.baseBet := baseBet.GetOr(10.0);
      this.maxBet := maxBet.GetOr(500.0);
      currentBet := baseBet.GetOr(10.0);
    }

    /** Updates the stored bet from the last recorded round and bets it, capped by the
        bankroll. */
    method GetBet(bankroll: real, history: seq<HistoryEntry>) returns (bet: real)
      modifies this
      ensures currentBet == NextCurrentBet(baseBet, maxBet, old(currentBet), history)
      ensures bet == RMin(currentBet, bankroll)
      ensures bet <= bankroll
    {
      if history == [] || history[|history| - 1].netWin >= 0.0 {
        currentBet := baseBet;
      } else {
        currentBet := RMin(currentBet * 2.0, maxBet);
      }
      bet := RMin(currentBet, bankroll);
    }

    method Reset()
      modifies this
      ensures currentBet == baseBet
    {
      currentBet := baseBet;
    }
  }
}
