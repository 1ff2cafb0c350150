/**
 * The state of a round: every point at which the round can stand between two inputs.
 * Each state owns the hands and turns in play at that point.
 */
module State {
  import opened Common
  import opened Cards
  import opened Hands
  import opened Turns

  datatype GameState =
    | Betting
    | DealFirstPlayerCards(bets: seq<nat>, playerTurns: seq<PendingTurn>)
    | DealFirstDealerCard(playerTurns: seq<PendingTurn>)
    | DealSecondPlayerCards(playerTurns: seq<PendingTurn>, dealerHand: DealerHand)
    | DealHoleCard(playerTurns: seq<PendingTurn>, dealerHand: DealerHand)
    | OfferEarlySurrender(playerTurns: seq<PendingTurn>, dealerHand: DealerHand)
    | OfferInsurance(playerTurns: seq<PendingTurn>, dealerHand: DealerHand)
    | CheckDealerHoleCard(playerTurns: seq<PendingTurn>, dealerHand: DealerHand)
    | PlayPlayerTurn(pendingTurns: seq<PendingTurn>, currentTurn: ActiveTurn, finishedTurns: seq<FinishedTurn>, dealerHand: DealerHand)
    | PlayerStand(pendingTurns: seq<PendingTurn>, currentTurn: ActiveTurn, finishedTurns: seq<FinishedTurn>, dealerHand: DealerHand)
    | PlayerHit(pendingTurns: seq<PendingTurn>, currentTurn: ActiveTurn, finishedTurns: seq<FinishedTurn>, dealerHand: DealerHand)
    | PlayerDouble(pendingTurns: seq<PendingTurn>, currentTurn: ActiveTurn, finishedTurns: seq<FinishedTurn>, dealerHand: DealerHand)
    | PlayerSplit(pendingTurns: seq<PendingTurn>, currentTurn: ActiveTurn, finishedTurns: seq<FinishedTurn>, dealerHand: DealerHand)
    | DealFirstSplitCard(pendingTurns: seq<PendingTurn>, currentTurn: ActiveTurn, newHand: PlayerHand, finishedTurns: seq<FinishedTurn>, dealerHand: DealerHand)
    | DealSecondSplitCard(pendingTurns: seq<PendingTurn>, currentTurn: ActiveTurn, newHand: PlayerHand, finishedTurns: seq<FinishedTurn>, dealerHand: DealerHand)
    | PlayerSurrender(pendingTurns: seq<PendingTurn>, currentTurn: ActiveTurn, finishedTurns: seq<FinishedTurn>, dealerHand: DealerHand)
    | RevealHoleCard(finishedTurns: seq<FinishedTurn>, dealerHand: DealerHand)
    | PlayDealerTurn(finishedTurns: seq<FinishedTurn>, dealerHand: DealerHand)
    | RoundOver(finishedTurns: seq<FinishedTurn>, dealerHand: DealerHand)
    | Payout(totalBets: seq<nat>, winnings: seq<nat>)
    | Shuffle
  {
    /** States that wait for the player's input; every other state advances on its own. */
    predicate NeedsInput() {
      Betting? || OfferEarlySurrender? || OfferInsurance? || PlayPlayerTurn?
    }

    /** The states of the player phase, which share the pending, current and finished turns. */
    predicate InPlayerPhase() {
      PlayPlayerTurn? || PlayerStand? || PlayerHit? || PlayerDouble? || PlayerSplit?
      || DealFirstSplitCard? || DealSecondSplitCard? || PlayerSurrender?
    }
  }

  /** A player hand's value is the value of its cards, and a hand in play is at most 20. */
  predicate Consistent(h: PlayerHand) {
    |h.cards| >= 1 && h.value == ValueOf(h.cards) && (h.status == InPlay ==> h.value.total <= 20)
  }

  /** A freshly dealt one-card hand, in play, without insurance. */
  predicate DealtOne(t: PendingTurn) {
    |t.hand.cards| == 1 && t.hand.status == InPlay && Consistent(t.hand) && t.insuranceBet == 0
  }

  /** A dealt two-card hand. */
  predicate DealtTwo(t: PendingTurn) {
    |t.hand.cards| == 2 && Consistent(t.hand)
  }

  predicate AllDealtTwo(ts: seq<PendingTurn>) {
    forall i :: 0 <= i < |ts| ==> DealtTwo(ts[i])
  }

  /** No finished turn holds a hand still in play. */
  predicate AllFinished(fs: seq<FinishedTurn>) {
    forall i :: 0 <= i < |fs| ==> NoneInPlay(fs[i].hands)
  }

  /**
   * What holds throughout the player phase: the current index names a hand, every hand
   * before it is played out, hands are consistent, the turns waiting have two cards,
   * the finished turns hold no hand in play, and the dealer shows a card.
   */
  predicate PlayPhase(pending: seq<PendingTurn>, current: ActiveTurn, finished: seq<FinishedTurn>, dealer: DealerHand) {
    && current.Valid() && current.PlayedUpTo()
    && (forall i :: 0 <= i < |current.hands| ==> Consistent(current.hands[i]))
    && AllDealtTwo(pending)
    && AllFinished(finished)
    && |dealer.cards| >= 1
  }

  /** Every hand of the turn holds at least two cards. */
  predicate AllDealt(current: ActiveTurn) {
    forall i :: 0 <= i < |current.hands| ==> |current.hands[i].cards| >= 2
  }

  /** Every hand of the turn but the current one holds at least two cards. */
  predicate OthersDealt(current: ActiveTurn) {
    forall i :: 0 <= i < |current.hands| && i != current.currentHandIndex ==> |current.hands[i].cards| >= 2
  }

  /** The hand a split leaves for later: one card, in play. */
  predicate SplitOff(h: PlayerHand) {
    |h.cards| == 1 && h.status == InPlay && Consistent(h)
  }

  /**
   * The states the engine produces from `Betting` with one player's bet. A player
   * turn state always has its current hand in play, so hitting, standing and
   * doubling never meet a finished hand.
   */
  predicate WellFormed(s: GameState) {
    match s
    case Betting => true
    case DealFirstPlayerCards(bets, turns) =>
      |bets| + |turns| == 1 && forall i :: 0 <= i < |turns| ==> DealtOne(turns[i])
    case DealFirstDealerCard(turns) =>
      |turns| == 1 && DealtOne(turns[0])
    case DealSecondPlayerCards(turns, dealer) =>
      && |turns| == 1 && turns[0].insuranceBet == 0 && (DealtOne(turns[0]) || DealtTwo(turns[0]))
      && |dealer.cards| == 1 && dealer.status == InPlay
    case DealHoleCard(turns, dealer) =>
      |turns| == 1 && DealtTwo(turns[0]) && turns[0].insuranceBet == 0 && |dealer.cards| == 1 && dealer.status == InPlay
    case OfferEarlySurrender(turns, dealer) =>
      |turns| == 1 && DealtTwo(turns[0]) && turns[0].insuranceBet == 0 && |dealer.cards| == 2
    case OfferInsurance(turns, dealer) =>
      |turns| == 1 && DealtTwo(turns[0]) && turns[0].insuranceBet == 0 && |dealer.cards| == 2
    case CheckDealerHoleCard(turns, dealer) =>
      |turns| == 1 && DealtTwo(turns[0]) && |dealer.cards| == 2
    case PlayPlayerTurn(pending, current, finished, dealer) =>
      PlayPhase(pending, current, finished, dealer) && AllDealt(current) && current.CurrentHand().status == InPlay
    case PlayerStand(pending, current, finished, dealer) =>
      PlayPhase(pending, current, finished, dealer) && AllDealt(current) && current.CurrentHand().status == InPlay
    case PlayerHit(pending, current, finished, dealer) =>
      PlayPhase(pending, current, finished, dealer) && AllDealt(current) && current.CurrentHand().status == InPlay
    case PlayerDouble(pending, current, finished, dealer) =>
      && PlayPhase(pending, current, finished, dealer) && AllDealt(current) && current.CurrentHand().status == InPlay
      && current.CurrentHand().Size() == 2
    case PlayerSplit(pending, current, finished, dealer) =>
      && PlayPhase(pending, current, finished, dealer) && AllDealt(current) && current.CurrentHand().status == InPlay
      && current.CurrentHand().IsPair()
    case PlayerSurrender(pending, current, finished, dealer) =>
      && PlayPhase(pending, current, finished, dealer) && AllDealt(current) && current.CurrentHand().status == InPlay
      && current.CurrentHand().Size() == 2
    case DealFirstSplitCard(pending, current, newHand, finished, dealer) =>
      && PlayPhase(pending, current, finished, dealer) && OthersDealt(current)
      && current.CurrentHand().status == InPlay && |current.CurrentHand().cards| == 1 && SplitOff(newHand)
    case DealSecondSplitCard(pending, current, newHand, finished, dealer) =>
      PlayPhase(pending, current, finished, dealer) && AllDealt(current) && SplitOff(newHand)
    case RevealHoleCard(finished, dealer) =>
      AllFinished(finished)
    case PlayDealerTurn(finished, dealer) =>
      AllFinished(finished) && dealer.status == InPlay
    case RoundOver(finished, dealer) =>
      true
    case Payout(totalBets, winnings) =>
      |totalBets| == |winnings|
    case Shuffle => true
  }

  /** The money a sequence of pending turns has on the table: bets and insurance. */
  function PendingStake(ts: seq<PendingTurn>): nat {
    if ts == [] then 0 else PendingStake(ts[..|ts| - 1]) + ts[|ts| - 1].hand.bet + ts[|ts| - 1].insuranceBet
  }

  /** The money a sequence of finished turns has on the table. */
  function FinishedStake(fs: seq<FinishedTurn>): nat {
    if fs == [] then 0 else FinishedStake(fs[..|fs| - 1]) + fs[|fs| - 1].TotalBet()
  }

  function ActiveStake(t: ActiveTurn): nat {
    SumBets(t.hands) + t.insuranceBet
  }

  function SumLast(s: seq<nat>): nat {
    if s == [] then 0 else SumLast(s[..|s| - 1]) + s[|s| - 1]
  }

  /**
   * All the money on the table in a state: bets not yet dealt, the bets and insurance of
   * every turn and split-off hand, or, once the round is over, the total bet of each turn.
   */
  function Stake(s: GameState): nat {
    match s
    case Betting => 0
    case DealFirstPlayerCards(bets, turns) => SumLast(bets) + PendingStake(turns)
    case DealFirstDealerCard(turns) => PendingStake(turns)
    case DealSecondPlayerCards(turns, _) => PendingStake(turns)
    case DealHoleCard(turns, _) => PendingStake(turns)
    case OfferEarlySurrender(turns, _) => PendingStake(turns)
    case OfferInsurance(turns, _) => PendingStake(turns)
    case CheckDealerHoleCard(turns, _) => PendingStake(turns)
    case PlayPlayerTurn(p, c, f, _) => PendingStake(p) + ActiveStake(c) + FinishedStake(f)
    case PlayerStand(p, c, f, _) => PendingStake(p) + ActiveStake(c) + FinishedStake(f)
    case PlayerHit(p, c, f, _) => PendingStake(p) + ActiveStake(c) + FinishedStake(f)
    case PlayerDouble(p, c, f, _) => PendingStake(p) + ActiveStake(c) + FinishedStake(f)
    case PlayerSplit(p, c, f, _) => PendingStake(p) + ActiveStake(c) + FinishedStake(f)
    case DealFirstSplitCard(p, c, h, f, _) => PendingStake(p) + ActiveStake(c) + h.bet + FinishedStake(f)
    case DealSecondSplitCard(p, c, h, f, _) => PendingStake(p) + ActiveStake(c) + h.bet + FinishedStake(f)
    case PlayerSurrender(p, c, f, _) => PendingStake(p) + ActiveStake(c) + FinishedStake(f)
    case RevealHoleCard(f, _) => FinishedStake(f)
    case PlayDealerTurn(f, _) => FinishedStake(f)
    case RoundOver(f, _) => FinishedStake(f)
    case Payout(totalBets, _) => SumLast(totalBets)
    case Shuffle => 0
  }

  /** The insurance bets of the pending turns, summed. */
  function TotalInsurance(ts: seq<PendingTurn>): nat {
    if ts == [] then 0 else TotalInsurance(ts[..|ts| - 1]) + ts[|ts| - 1].insuranceBet
  }

  /** Every pending turn finished as it is, one finished turn each. */
  function FinishAll(ts: seq<PendingTurn>): (r: seq<FinishedTurn>)
    ensures |r| == |ts| && forall i :: 0 <= i < |ts| ==> r[i] == FinishedFrom(ts[i])
  {
    seq(|ts|, i requires 0 <= i < |ts| => FinishedFrom(ts[i]))
  }

  /** A one-card hand is worth what its card is worth. */
  lemma ValueOfSingle(c: Card)
    ensures ValueOf([c]) == CardValue(c)
  {
    assert [c][..0] == [];
  }

  /** A freshly dealt hand is consistent: a one-card hand in play. */
  lemma NewHandDealt(c: Card, bet: nat)
    ensures SplitOff(NewPlayerHand(c, bet)) && DealtOne(PendingFrom(NewPlayerHand(c, bet)))
  {
    ValueOfSingle(c);
  }

  /** Adding a card to a consistent hand in play keeps it consistent. */
  lemma AddKeepsConsistent(h: PlayerHand, c: Card)
    requires Consistent(h) && h.status == InPlay
    ensures Consistent(h.Add(c))
  {
    ValueOfAppend(h.cards, c);
  }

  /** Doubling a consistent two-card hand keeps it consistent. */
  lemma DoubleKeepsConsistent(h: PlayerHand, c: Card)
    requires Consistent(h) && h.status == InPlay && h.Size() == 2
    ensures Consistent(h.Double(c))
  {
    ValueOfAppend(h.cards, c);
  }

  /** Replacing the current hand by a consistent dealt hand keeps the player phase's invariant. */
  lemma ReplaceCurrentKeepsPhase(p: seq<PendingTurn>, c: ActiveTurn, f: seq<FinishedTurn>, d: DealerHand, h: PlayerHand)
    requires PlayPhase(p, c, f, d) && OthersDealt(c) && Consistent(h) && |h.cards| >= 2
    ensures PlayPhase(p, c.WithCurrentHand(h), f, d) && AllDealt(c.WithCurrentHand(h))
  {
  }

  /** Deferring a consistent dealt hand keeps the player phase's invariant. */
  lemma DeferKeepsPhase(p: seq<PendingTurn>, c: ActiveTurn, f: seq<FinishedTurn>, d: DealerHand, h: PlayerHand)
    requires PlayPhase(p, c, f, d) && AllDealt(c) && Consistent(h) && |h.cards| >= 2
    ensures PlayPhase(p, c.Defer(h), f, d) && AllDealt(c.Defer(h))
  {
  }

  /** Replacing the current hand changes the turn's stake by the difference of the two bets. */
  lemma ReplaceCurrentStake(c: ActiveTurn, h: PlayerHand)
    requires c.Valid()
    ensures ActiveStake(c.WithCurrentHand(h)) + c.CurrentHand().bet == ActiveStake(c) + h.bet
  {
    SumBetsUpdate(c.hands, c.currentHandIndex, h);
  }

  /** Deferring a hand adds its bet to the turn's stake. */
  lemma DeferStake(c: ActiveTurn, h: PlayerHand)
    ensures ActiveStake(c.Defer(h)) == ActiveStake(c) + h.bet
  {
    assert (c.hands + [h])[..|c.hands|] == c.hands;
  }

  /** The summed bets of a single hand are its bet. */
  lemma SumBetsSingle(h: PlayerHand)
    ensures SumBets([h]) == h.bet
  {
    var hs := [h];
    assert hs[..|hs| - 1] == [];
  }

  /** A pending turn entering play, or finishing as it is, keeps its stake. */
  lemma PendingTurnStake(t: PendingTurn)
    ensures ActiveStake(ActiveFrom(t)) == t.hand.bet + t.insuranceBet
    ensures FinishedFrom(t).TotalBet() == t.hand.bet + t.insuranceBet
  {
    SumBetsSingle(t.hand);
  }

  /** Appending a finished turn adds its total bet. */
  lemma FinishedStakeAppend(f: seq<FinishedTurn>, t: FinishedTurn)
    ensures FinishedStake(f + [t]) == FinishedStake(f) + t.TotalBet()
  {
    assert (f + [t])[..|f|] == f;
  }

  /** Finishing every pending turn as it is keeps the money on the table. */
  lemma {:induction false} FinishAllStake(ts: seq<PendingTurn>)
    ensures FinishedStake(FinishAll(ts)) == PendingStake(ts)
  {
    if ts != [] {
      var n := |ts|;
      FinishAllStake(ts[..n - 1]);
      assert FinishAll(ts)[..n - 1] == FinishAll(ts[..n - 1]);
      PendingTurnStake(ts[n - 1]);
    }
  }

  /**
   * Two sequences of pending turns with the same hand bets differ in stake exactly by
   * their insurance: an insurance change is the only money that moves.
   */
  lemma {:induction false} PendingStakeByInsurance(a: seq<PendingTurn>, b: seq<PendingTurn>)
    requires |a| == |b| && forall i :: 0 <= i < |a| ==> a[i].hand.bet == b[i].hand.bet
    ensures PendingStake(a) + TotalInsurance(b) == PendingStake(b) + TotalInsurance(a)
  {
    if a != [] {
      PendingStakeByInsurance(a[..|a| - 1], b[..|b| - 1]);
    }
  }
}
