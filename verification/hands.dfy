/**
 * Hand values and the player's and dealer's hands.
 *
 * A value keeps a total and whether an ace in it is still counted as 11 (soft).
 * Hands are values: the round's state owns them and hands them on, so every
 * in-place update of the Rust code is a member function returning the updated hand.
 */
module Hands {
  import opened Cards
  import opened TableRules

  /** The status of a hand: in play, or one of four terminal states. */
  datatype Status = InPlay | Stood | Bust | Blackjack | Surrendered

  /** How many of the two operands of an addition are soft. */
  function SoftCount(a: Value, b: Value): nat {
    (if a.soft then 1 else 0) + (if b.soft then 1 else 0)
  }

  /** The game value of a hand, such as "Soft 20". */
  datatype Value = Value(soft: bool, total: nat) {

    /** A soft value counts an ace as 11, so its total is at least 11. */
    predicate Valid() {
      soft ==> total >= 11
    }

    /**
     * `self += rhs`: an incoming soft ace is counted as 1 if 11 would bust,
     * then an ace already counted as 11 is turned into 1 if the sum would still bust.
     */
    function Add(rhs: HandValue): (r: HandValue)
      requires Valid()
      // A total over 21 is reported only once no soft ace is left to deflate.
      ensures r.total > 21 ==> !r.soft && r.total + 10 * SoftCount(this, rhs) == total + rhs.total
      // Every soft side that did not stay soft was deflated by exactly 10, at most one side stays soft.
      ensures r.total + 10 * SoftCount(this, rhs) == total + rhs.total + (if r.soft then 10 else 0)
      ensures r.soft ==> soft || rhs.soft
      // A deflation happens only when counting the ace as 11 would bust.
      ensures r.total < total + rhs.total ==> r.total + 10 > 21
    {
      var incomingSoft := rhs.soft && !(total + rhs.total > 21);
      var worth := if rhs.soft && total + rhs.total > 21 then rhs.total - 10 else rhs.total;
      var selfSoft := soft && !(total + worth > 21);
      var selfTotal := if soft && total + worth > 21 then total - 10 else total;
      Value(selfSoft || incomingSoft, selfTotal + worth)
    }
  }

  type HandValue = v: Value | v.Valid() witness Value(false, 0)

  /** The value of a single card (`Value::from(&Card)`): an ace is a soft 11. */
  function CardValue(c: Card): HandValue {
    Value(c.rank == Ace, Worth(c.rank))
  }

  /** What a card adds to a hand when every ace counts 1. */
  function HardWorth(c: Card): nat {
    if c.rank == Ace then 1 else Worth(c.rank)
  }

  /** The value of cards added one at a time to the empty (default) value. */
  function ValueOf(cards: seq<Card>): HandValue {
    if cards == [] then Value(false, 0)
    else ValueOf(cards[..|cards| - 1]).Add(CardValue(cards[|cards| - 1]))
  }

  /** The total with every ace counted as 1. */
  function HardSum(cards: seq<Card>): nat {
    if cards == [] then 0 else HardSum(cards[..|cards| - 1]) + HardWorth(cards[|cards| - 1])
  }

  predicate HasAce(cards: seq<Card>) {
    exists i :: 0 <= i < |cards| && cards[i].rank == Ace
  }

  /** Every card adds at least 1 to the hard sum, and a non-ace at least 2. */
  lemma {:induction false} HardSumBounds(cards: seq<Card>)
    ensures HardSum(cards) >= |cards|
    ensures !HasAce(cards) ==> HardSum(cards) >= 2 * |cards|
  {
    if cards != [] {
      var init := cards[..|cards| - 1];
      HardSumBounds(init);
      if !HasAce(cards) {
        assert !HasAce(init) by {
          forall i | 0 <= i < |init| ensures init[i].rank != Ace {
            assert init[i] == cards[i];
          }
        }
      }
    }
  }

  /**
   * Reference definition of a hand's value: the hard sum, plus 10 exactly when the
   * hand holds an ace and counting one ace as 11 does not bust. Adding the cards
   * one at a time always lands there.
   */
  lemma {:induction false} ValueOfIsBestTotal(cards: seq<Card>)
    ensures ValueOf(cards).soft == (HasAce(cards) && HardSum(cards) + 10 <= 21)
    ensures ValueOf(cards).total == HardSum(cards) + (if ValueOf(cards).soft then 10 else 0)
  {
    if cards != [] {
      var init := cards[..|cards| - 1];
      var last := cards[|cards| - 1];
      ValueOfIsBestTotal(init);
      HardSumBounds(init);
      assert HasAce(cards) <==> HasAce(init) || last.rank == Ace by {
        if HasAce(cards) {
          var i :| 0 <= i < |cards| && cards[i].rank == Ace;
          if i < |init| { assert init[i] == cards[i]; }
        }
        if HasAce(init) {
          var i :| 0 <= i < |init| && init[i].rank == Ace;
          assert cards[i] == init[i];
        }
      }
    }
  }

  /** A value built from cards is a soft 12 only for a pair of aces. */
  lemma SoftTwelveIsAcePair(cards: seq<Card>)
    requires ValueOf(cards).soft && ValueOf(cards).total == 12
    ensures |cards| == 2 && cards[0].rank == Ace && cards[1].rank == Ace
  {
    ValueOfIsBestTotal(cards);
    HardSumBounds(cards);
    var init := cards[..|cards| - 1];
    HardSumBounds(init);
    assert init == [cards[0]];
    assert HardSum(init) == HardWorth(cards[0]);
  }

  /** Adding one card to a value built from cards gives the value of the longer hand. */
  lemma ValueOfAppend(cards: seq<Card>, c: Card)
    ensures ValueOf(cards + [c]) == ValueOf(cards).Add(CardValue(c))
  {
    assert (cards + [c])[..|cards + [c]| - 1] == cards;
  }

  /** The status a player's hand takes after a card is added. */
  function PlayerStatus(total: nat, size: nat): (r: Status)
    ensures r == Bust <==> total >= 22
    ensures r == Blackjack <==> total == 21 && size == 2
    ensures r == Stood <==> total == 21 && size != 2
    ensures r == InPlay <==> total <= 20
  {
    if total >= 22 then Bust
    else if total == 21 && size == 2 then Blackjack
    else if total == 21 then Stood
    else InPlay
  }

  /** The status a dealer's hand takes after a card is added. */
  function DealerStatus(v: Value, size: nat, action: DealerSoft17Action): (r: Status)
    ensures r == Bust <==> v.total >= 22
    ensures r == InPlay <==> v.total < 17 || (v.soft && v.total == 17 && action == HitOnSoft17)
    ensures r == Blackjack <==> v.soft && v.total == 21 && size == 2
    ensures r == Stood <==> 17 <= v.total <= 21 && !(v.soft && v.total == 17 && action == HitOnSoft17)
                            && !(v.soft && v.total == 21 && size == 2)
  {
    if v.soft && v.total == 17 && action == HitOnSoft17 then InPlay
    else if v.soft && v.total == 21 && size == 2 then Blackjack
    else if 17 <= v.total <= 21 then Stood
    else if v.total >= 22 then Bust
    else InPlay
  }

  /** The dealer's hand; its first card is the up card. */
  datatype DealerHand = DealerHand(value: HandValue, status: Status, cards: seq<Card>, soft17Action: DealerSoft17Action) {

    /** `dealer_hand += card`; only a hand still in play takes a card. */
    function Add(c: Card): (r: DealerHand)
      requires status == InPlay
      ensures r.cards == cards + [c] && r.soft17Action == soft17Action
      ensures r.value == value.Add(CardValue(c))
      ensures r.status == InPlay <==> r.value.total < 17 || (r.value.soft && r.value.total == 17 && HitsOnSoft17())
      ensures r.status == Blackjack <==> r.value.soft && r.value.total == 21 && |r.cards| == 2
      ensures r.status == Bust <==> r.value.total >= 22
      ensures r.status != Surrendered
    {
      var v := value.Add(CardValue(c));
      var newCards := cards + [c];
      DealerHand(v, DealerStatus(v, |newCards|, soft17Action), newCards, soft17Action)
    }

    /** The worth of the up card, the only card the player may base a decision on. */
    function Showing(): (w: nat)
      requires |cards| > 0
      ensures 2 <= w <= 11
    {
      Worth(cards[0].rank)
    }

    predicate HitsOnSoft17() {
      soft17Action == HitOnSoft17
    }
  }

  /** A dealer hand holding one card, in play. */
  function NewDealerHand(card: Card, action: DealerSoft17Action): DealerHand {
    DealerHand(CardValue(card), InPlay, [card], action)
  }

  /** A player's hand: its bet, value, status and cards. */
  datatype PlayerHand = PlayerHand(bet: nat, value: HandValue, status: Status, cards: seq<Card>) {

    function Size(): nat {
      |cards|
    }

    /** Two cards of equal rank, so of equal worth. */
    predicate IsPair()
      ensures IsPair() ==> |cards| == 2 && Worth(cards[0].rank) == Worth(cards[1].rank)
    {
      |cards| == 2 && cards[0].rank == cards[1].rank
    }

    /** `hand += card`; only a hand still in play takes a card. */
    function Add(c: Card): (r: PlayerHand)
      requires status == InPlay
      ensures r.cards == cards + [c] && r.bet == bet
      ensures r.value == value.Add(CardValue(c))
      ensures r.status == Bust <==> r.value.total >= 22
      ensures r.status == Blackjack <==> r.value.total == 21 && |r.cards| == 2
      ensures r.status == Stood <==> r.value.total == 21 && |r.cards| != 2
      ensures r.status == InPlay <==> r.value.total <= 20
    {
      var v := value.Add(CardValue(c));
      var newCards := cards + [c];
      PlayerHand(bet, v, PlayerStatus(v.total, |newCards|), newCards)
    }

    /** The player stands on this hand. */
    function Stand(): (r: PlayerHand)
      requires status == InPlay
      ensures r == this.(status := Stood)
    {
      this.(status := Stood)
    }

    /** Double down: the bet doubles, one card is added, and the hand stands unless that card finished it. */
    function Double(c: Card): (r: PlayerHand)
      requires Size() == 2 && status == InPlay
      ensures r.bet == 2 * bet
      ensures r.cards == cards + [c] && r.value == value.Add(CardValue(c))
      ensures r.status != InPlay
      ensures r.status == (if Add(c).status == InPlay then Stood else Add(c).status)
    {
      var added := this.(bet := bet * 2).Add(c);
      if added.status == InPlay then added.(status := Stood) else added
    }

    /**
     * Split a pair: this hand keeps its first card, valued as that card alone,
     * and a new one-card hand with the same bet takes the second.
     */
    function Split(): (r: (PlayerHand, PlayerHand))
      requires IsPair()
      ensures r.0 == this.(cards := [cards[0]], value := CardValue(cards[0]))
      ensures r.1 == NewPlayerHand(cards[1], bet)
      ensures r.0.cards + r.1.cards == cards
    {
      (this.(cards := [cards[0]], value := CardValue(cards[0])), NewPlayerHand(cards[1], bet))
    }

    /** The player surrenders this two-card hand. */
    function Surrender(): (r: PlayerHand)
      requires Size() == 2
      ensures r == this.(status := Surrendered)
    {
      this.(status := Surrendered)
    }

    /** What this hand pays once the dealer's hand is finished. */
    function CalculateWinnings(dealer: DealerHand, payout: BlackjackPayout): (r: nat)
      ensures status == Bust ==> r == 0
      ensures dealer.status == Blackjack ==>
                r == (if status == Blackjack then bet else if status == Surrendered then bet / 2 else 0)
      ensures status == Blackjack && dealer.status != Blackjack ==> r == PayoutBlackjack(bet, payout)
      ensures status == Stood && dealer.status == Bust ==> r == 2 * bet
    {
      HandWinnings(status, value.total, bet, dealer.status, dealer.value.total, payout)
    }
  }

  /** A player hand holding one card and a bet, in play. */
  function NewPlayerHand(card: Card, bet: nat): PlayerHand {
    PlayerHand(bet, CardValue(card), InPlay, [card])
  }

  /** What a blackjack returns: the bet plus 3/2 or 6/5 of it, rounded down. */
  function PayoutBlackjack(bet: nat, payout: BlackjackPayout): nat {
    match payout
    case ThreeToTwo => bet + bet * 3 / 2
    case SixToFive => bet + bet * 6 / 5
  }

  /** The payout case table, tried in order. */
  function HandWinnings(player: Status, total: nat, bet: nat, dealer: Status, dealerTotal: nat,
                        payout: BlackjackPayout): (r: nat)
    ensures r <= PayoutBlackjack(bet, ThreeToTwo)
    ensures player == Surrendered ==> r == bet / 2
    ensures player != Blackjack && player != Surrendered ==> r == 0 || r == bet || r == 2 * bet
  {
    if player == Surrendered then bet / 2
    else if player == Blackjack && dealer == Blackjack then bet
    else if player == Blackjack then PayoutBlackjack(bet, payout)
    else if dealer == Blackjack || player == Bust then 0
    else if dealer == Bust then 2 * bet
    else if total > dealerTotal then 2 * bet
    else if total == dealerTotal then bet
    else 0
  }

  /** The player beats the dealer: by blackjack, by the dealer busting, or by a higher total. */
  predicate Beats(h: PlayerHand, d: DealerHand) {
    if h.status == Blackjack then d.status != Blackjack
    else h.status != Surrendered && h.status != Bust && d.status != Blackjack
         && (d.status == Bust || h.value.total > d.value.total)
  }

  /** Neither side wins: two blackjacks, or equal totals with nobody busted or holding blackjack. */
  predicate Ties(h: PlayerHand, d: DealerHand) {
    if h.status == Blackjack then d.status == Blackjack
    else h.status != Surrendered && h.status != Bust && d.status != Blackjack && d.status != Bust
         && h.value.total == d.value.total
  }

  /**
   * For a positive bet the amount paid tells the outcome: more than the bet exactly
   * when the player beats the dealer, the bet exactly on a tie, less otherwise
   * (a loss pays nothing, a surrender half the bet).
   */
  lemma WinningsTellOutcome(h: PlayerHand, d: DealerHand, payout: BlackjackPayout)
    requires h.bet > 0
    ensures h.CalculateWinnings(d, payout) > h.bet <==> Beats(h, d)
    ensures h.CalculateWinnings(d, payout) == h.bet <==> Ties(h, d)
    ensures h.CalculateWinnings(d, payout) <= PayoutBlackjack(h.bet, ThreeToTwo)
    ensures !Beats(h, d) && !Ties(h, d) ==>
              h.CalculateWinnings(d, payout) == (if h.status == Surrendered then h.bet / 2 else 0)
  {
  }
}
