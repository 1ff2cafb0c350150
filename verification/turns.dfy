/**
 * A player's turn in its three stages: pending (one dealt hand, waiting for the
 * player phase), active (being played, possibly split into several hands) and
 * finished (every hand played out).
 */
module Turns {
  import opened Common
  import opened Cards
  import opened TableRules
  import opened Hands

  /** A turn waiting to be played: the only hand and the single insurance bet. */
  datatype PendingTurn = PendingTurn(hand: PlayerHand, insuranceBet: nat)

  /** A freshly dealt hand becomes a pending turn without insurance. */
  function PendingFrom(hand: PlayerHand): (t: PendingTurn)
    ensures t.hand == hand && t.insuranceBet == 0
  {
    PendingTurn(hand, 0)
  }

  /** No hand of the sequence is still in play. */
  predicate NoneInPlay(hands: seq<PlayerHand>) {
    forall i :: 0 <= i < |hands| ==> hands[i].status != InPlay
  }

  /** The sum of the bets of a sequence of hands. */
  function SumBets(hands: seq<PlayerHand>): nat {
    if hands == [] then 0 else SumBets(hands[..|hands| - 1]) + hands[|hands| - 1].bet
  }

  /** The turn being played: its hands in the order they were split, and the hand being played. */
  datatype ActiveTurn = ActiveTurn(hands: seq<PlayerHand>, currentHandIndex: nat, insuranceBet: nat) {

    /** The index names a hand. */
    predicate Valid() {
      currentHandIndex < |hands|
    }

    /** Every hand before the current one has been played out. */
    predicate PlayedUpTo() {
      forall i :: 0 <= i < |hands| && i < currentHandIndex ==> hands[i].status != InPlay
    }

    function CurrentHand(): PlayerHand
      requires Valid()
    {
      hands[currentHandIndex]
    }

    /** The current hand replaced after an action on it. */
    function WithCurrentHand(h: PlayerHand): (r: ActiveTurn)
      requires Valid()
      ensures r.Valid() && r.CurrentHand() == h
      ensures r.hands == hands[currentHandIndex := h]
      ensures r.currentHandIndex == currentHandIndex && r.insuranceBet == insuranceBet
    {
      this.(hands := hands[currentHandIndex := h])
    }

    /** The number of hands, as the byte the Rust code reports: it wraps past 255. */
    function HandCount(): (n: nat)
      ensures n < 256
      ensures |hands| < 256 ==> n == |hands|
      ensures n % 256 == |hands| % 256
    {
      |hands| % 256
    }

    /** A split-off hand is appended, to be played after the hands before it. */
    function Defer(hand: PlayerHand): (r: ActiveTurn)
      ensures r.hands == hands + [hand]
      ensures r.currentHandIndex == currentHandIndex && r.insuranceBet == insuranceBet
      ensures Valid() ==> r.Valid() && r.CurrentHand() == CurrentHand()
    {
      this.(hands := hands + [hand])
    }
  }

  /** A pending turn enters play on its only hand. */
  function ActiveFrom(t: PendingTurn): (r: ActiveTurn)
    ensures r.Valid() && r.PlayedUpTo() && r.CurrentHand() == t.hand
    ensures r.hands == [t.hand] && r.insuranceBet == t.insuranceBet
  {
    ActiveTurn([t.hand], 0, t.insuranceBet)
  }

  /** A played-out turn: its hands and its insurance bet. */
  datatype FinishedTurn = FinishedTurn(hands: seq<PlayerHand>, insuranceBet: nat) {

    /** Everything the player put on the table for this turn. */
    function TotalBet(): nat {
      SumBets(hands) + insuranceBet
    }

    /** What this turn pays: insurance pays 2:1 when the dealer has blackjack, plus each hand's winnings. */
    function CalculateWinnings(dealer: DealerHand, payout: BlackjackPayout): (r: nat)
      ensures dealer.status != Blackjack ==> r == HandsWinnings(hands, dealer, payout)
      ensures dealer.status == Blackjack ==> r == 2 * insuranceBet + HandsWinnings(hands, dealer, payout)
    {
      (if dealer.status == Blackjack then insuranceBet * 2 else 0) + HandsWinnings(hands, dealer, payout)
    }
  }

  /** The sum of the winnings of a sequence of hands. */
  function HandsWinnings(hands: seq<PlayerHand>, dealer: DealerHand, payout: BlackjackPayout): nat {
    if hands == [] then 0
    else HandsWinnings(hands[..|hands| - 1], dealer, payout) + hands[|hands| - 1].CalculateWinnings(dealer, payout)
  }

  /** A pending turn that never enters play (blackjack, surrender, dealer blackjack) finishes as it is. */
  function FinishedFrom(t: PendingTurn): (r: FinishedTurn)
    ensures r.hands == [t.hand] && r.insuranceBet == t.insuranceBet
  {
    FinishedTurn([t.hand], t.insuranceBet)
  }

  /** The index of the first hand at or after `i` still in play, or the number of hands if none is. */
  function FirstInPlayFrom(hands: seq<PlayerHand>, i: nat): (k: nat)
    requires i <= |hands|
    ensures i <= k <= |hands|
    ensures k < |hands| ==> hands[k].status == InPlay
    ensures forall j :: i <= j < k ==> hands[j].status != InPlay
    decreases |hands| - i
  {
    if i == |hands| || hands[i].status == InPlay then i else FirstInPlayFrom(hands, i + 1)
  }

  /**
   * `continue_playing`: from the current index, find the first hand still in play.
   * If there is one, play resumes there; otherwise the turn is finished, with the
   * same hands and insurance.
   */
  function ContinuePlaying(t: ActiveTurn): (r: Result<ActiveTurn, FinishedTurn>)
    ensures r.Ok? ==> r.value.hands == t.hands && r.value.insuranceBet == t.insuranceBet
    ensures r.Ok? ==> r.value.Valid() && r.value.CurrentHand().status == InPlay
    ensures r.Ok? ==> t.currentHandIndex <= r.value.currentHandIndex
    ensures r.Ok? ==> forall i :: t.currentHandIndex <= i < r.value.currentHandIndex ==> t.hands[i].status != InPlay
    ensures r.Err? <==> forall i :: t.currentHandIndex <= i < |t.hands| ==> t.hands[i].status != InPlay
    ensures r.Err? ==> r.error == FinishedTurn(t.hands, t.insuranceBet)
    // Played in order: nothing before the current hand is skipped, and a finished turn holds no hand in play.
    ensures t.PlayedUpTo() && r.Ok? ==> r.value.PlayedUpTo()
    ensures t.PlayedUpTo() && r.Err? ==> NoneInPlay(r.error.hands)
  {
    if t.currentHandIndex < |t.hands| && FirstInPlayFrom(t.hands, t.currentHandIndex) < |t.hands| then
      Ok(t.(currentHandIndex := FirstInPlayFrom(t.hands, t.currentHandIndex)))
    else
      Err(FinishedTurn(t.hands, t.insuranceBet))
  }

  /** Replacing one hand changes the summed bets by the difference of the two bets. */
  lemma {:induction false} SumBetsUpdate(hands: seq<PlayerHand>, i: nat, h: PlayerHand)
    requires i < |hands|
    ensures SumBets(hands[i := h]) + hands[i].bet == SumBets(hands) + h.bet
  {
    var n := |hands|;
    if i < n - 1 {
      assert hands[i := h][..n - 1] == hands[..n - 1][i := h];
      SumBetsUpdate(hands[..n - 1], i, h);
    } else {
      assert hands[i := h][..n - 1] == hands[..n - 1];
    }
  }

  /**
   * Splitting the current hand puts a second hand with the same bet on the table:
   * the turn's summed bets grow by exactly that bet.
   */
  lemma SplitAddsOneBet(t: ActiveTurn)
    requires t.Valid() && t.CurrentHand().IsPair()
    ensures var (kept, split) := t.CurrentHand().Split();
            SumBets(t.WithCurrentHand(kept).Defer(split).hands) == SumBets(t.hands) + t.CurrentHand().bet
  {
    var (kept, split) := t.CurrentHand().Split();
    var hs := t.hands[t.currentHandIndex := kept];
    SumBetsUpdate(t.hands, t.currentHandIndex, kept);
    assert (hs + [split])[..|hs + [split]| - 1] == hs;
  }

  /**
   * The house never pays more than 2:1 on insurance and 5:2 on a hand:
   * twice the winnings are at most four times the insurance plus five times the bets.
   */
  lemma {:induction false} WinningsBounded(t: FinishedTurn, dealer: DealerHand, payout: BlackjackPayout)
    ensures 2 * t.CalculateWinnings(dealer, payout) <= 4 * t.insuranceBet + 5 * SumBets(t.hands)
  {
    HandsWinningsBounded(t.hands, dealer, payout);
  }

  lemma {:induction false} HandsWinningsBounded(hands: seq<PlayerHand>, dealer: DealerHand, payout: BlackjackPayout)
    ensures 2 * HandsWinnings(hands, dealer, payout) <= 5 * SumBets(hands)
  {
    if hands != [] {
      HandsWinningsBounded(hands[..|hands| - 1], dealer, payout);
      var h := hands[|hands| - 1];
      if h.bet > 0 { WinningsTellOutcome(h, dealer, payout); }
    }
  }
}
