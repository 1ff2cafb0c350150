/** The per-table configuration, fixed for the lifetime of a table. */
module TableRules {
  import opened Common

  /** Whether the dealer draws again on a soft 17. The default is to stand. */
  datatype DealerSoft17Action = StandOnSoft17 | HitOnSoft17

  /** What a player blackjack pays on top of the bet. The default is 3:2. */
  datatype BlackjackPayout = ThreeToTwo | SixToFive

  datatype Rules = Rules(
    maxBet: Option<nat>,
    minBet: Option<nat>,
    blackjackPayout: BlackjackPayout,
    dealerSoft17: DealerSoft17Action,
    offerInsurance: bool,
    offerEarlySurrender: bool,
    offerLateSurrender: bool,
    maxSplits: Option<nat>,
    doubleAfterSplit: bool,
    splitAces: bool)

  /** The default table: minimum bet 100, no maximum, 3:2, dealer stands on soft 17,
      late surrender only, up to five splits, doubling after a split and splitting aces allowed. */
  function DefaultRules(): (r: Rules)
    ensures r.minBet == Some(100) && r.maxBet == None
    ensures r.blackjackPayout == ThreeToTwo && r.dealerSoft17 == StandOnSoft17
    ensures !r.offerInsurance && !r.offerEarlySurrender && r.offerLateSurrender
    ensures r.maxSplits == Some(5) && r.doubleAfterSplit && r.splitAces
  {
    Rules(
      maxBet := None,
      minBet := Some(100),
      blackjackPayout := ThreeToTwo,
      dealerSoft17 := StandOnSoft17,
      offerInsurance := false,
      offerEarlySurrender := false,
      offerLateSurrender := true,
      maxSplits := Some(5),
      doubleAfterSplit := true,
      splitAces := true)
  }
}
