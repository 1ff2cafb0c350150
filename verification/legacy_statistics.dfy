/**
 * The statistics of the older game, counted once per finished turn. A finished turn is
 * given here by its hands, each as its status, bet and stored winnings, and by the
 * dealer's final status.
 */
module LegacyStats {
  import opened Hands
  import opened Stats

  class LegacyStatistics {
    var turnsPlayed: nat
    var handsPlayed: nat
    var totalBet: nat
    var wins: nat
    var pushes: nat
    var losses: nat
    var blackjacks: nat
    var busts: nat
    var dealerBlackjacks: nat
    var dealerBusts: nat

    /** Every counter starts at zero. */
    constructor ()
      ensures turnsPlayed == 0 && handsPlayed == 0 && totalBet == 0
      ensures wins == 0 && pushes == 0 && losses == 0 && blackjacks == 0 && busts == 0
      ensures dealerBlackjacks == 0 && dealerBusts == 0
    {
      turnsPlayed, handsPlayed, totalBet := 0, 0, 0;
      wins, pushes, losses, blackjacks, busts := 0, 0, 0, 0, 0;
      dealerBlackjacks, dealerBusts := 0, 0;
    }

    /**
     * Count one finished turn: one more turn, its hands, each a win, a push or a loss by
     * what it paid against its bet, its bets, its blackjacks and busts, and the dealer's
     * blackjack or bust.
     */
    method Update(hands: seq<HandOutcome>, dealer: Status)
      modifies this
      ensures turnsPlayed == old(turnsPlayed) + 1 && handsPlayed == old(handsPlayed) + |hands|
      ensures wins == old(wins) + CountWins(hands)
      ensures pushes == old(pushes) + CountPushes(hands)
      ensures losses == old(losses) + CountLosses(hands)
      ensures totalBet == old(totalBet) + SumOutcomeBets(hands)
      ensures blackjacks == old(blackjacks) + CountStatus(hands, Blackjack)
      ensures busts == old(busts) + CountStatus(hands, Bust)
      ensures dealerBlackjacks == old(dealerBlackjacks) + (if dealer == Blackjack then 1 else 0)
      ensures dealerBusts == old(dealerBusts) + (if dealer == Bust then 1 else 0)
      // Each hand is exactly one of a win, a push or a loss.
      ensures wins + pushes + losses == old(wins + pushes + losses) + |hands|
      // The dealer ends a turn with at most one of a blackjack and a bust.
      ensures dealerBlackjacks + dealerBusts <= old(dealerBlackjacks + dealerBusts) + 1
    {
      OutcomesPartition(hands);
      turnsPlayed := turnsPlayed + 1;
      handsPlayed := handsPlayed + |hands|;
      wins := wins + CountWins(hands);
      pushes := pushes + CountPushes(hands);
      losses := losses + CountLosses(hands);
      totalBet := totalBet + SumOutcomeBets(hands);
      blackjacks := blackjacks + CountStatus(hands, Blackjack);
      busts := busts + CountStatus(hands, Bust);
      dealerBlackjacks := dealerBlackjacks + (if dealer == Blackjack then 1 else 0);
      dealerBusts := dealerBusts + (if dealer == Bust then 1 else 0);
    }
  }
}
