/**
 * The hands and shoe of the older single-binary game. Cards, ranks, their worth, the
 * ordinal order and the value arithmetic are the same as the core's (see Cards and
 * Hands); the hands here are objects updated in place, a player hand remembers how
 * often it was split and stores its own winnings, and the shoe keeps an explicit array
 * of the copies left of each card.
 */
module LegacyCards {
  import opened Common
  import opened Cards
  import opened TableRules
  import opened Hands
  import Shoes

  /**
   * The dealer's status after a card, tried in the order of the older game: a bust first,
   * then a two-card soft 21, then a soft 17 the dealer hits, then 17 or more. The order
   * differs from the core's, but the cases never overlap, so both agree.
   */
  function LegacyDealerStatus(v: Value, size: nat, soft17Hit: bool): (s: Status)
    ensures s == DealerStatus(v, size, if soft17Hit then HitOnSoft17 else StandOnSoft17)
  {
    if v.total >= 22 then Bust
    else if v.soft && v.total == 21 && size == 2 then Blackjack
    else if v.soft && v.total == 17 && soft17Hit then InPlay
    else if v.total >= 17 then Stood
    else InPlay
  }

  /** The dealer's hand: its cards, value and status, and whether the dealer hits a soft 17. */
  class LegacyDealerHand {
    var cards: seq<Card>
    var value: HandValue
    var status: Status
    const soft17Hit: bool

    /** A hand of one card: the default hand with that card added. */
    constructor (card: Card, soft17Hit: bool)
      ensures this.soft17Hit == soft17Hit
      ensures cards == [card] && value == CardValue(card) && status == InPlay
    {
      this.soft17Hit := soft17Hit;
      cards, value, status := [], Value(false, 0), InPlay;
      new;
      AddCard(card);
    }

    /** `dealer_hand += card`: the card is valued, kept, and the status recomputed. */
    method AddCard(c: Card)
      modifies this
      ensures cards == old(cards) + [c]
      ensures value == old(value).Add(CardValue(c))
      ensures status == LegacyDealerStatus(value, |cards|, soft17Hit)
      ensures old(value) == ValueOf(old(cards)) ==> value == ValueOf(cards)
    {
      ValueOfAppend(cards, c);
      value := value.Add(CardValue(c));
      cards := cards + [c];
      status := LegacyDealerStatus(value, |cards|, soft17Hit);
    }

    /** The worth of the up card. */
    function Showing(): (w: nat)
      reads this
      requires |cards| > 0
      ensures 2 <= w <= 11
    {
      Worth(cards[0].rank)
    }
  }

  /** A player's hand: its cards, value and status, how often it was split, its bet and its winnings. */
  class LegacyPlayerHand {
    var cards: seq<Card>
    var value: HandValue
    var status: Status
    var splits: nat
    var bet: nat
    var winnings: nat

    /** The value is the one its cards add up to, one at a time. */
    ghost predicate Consistent()
      reads this
    {
      value == ValueOf(cards)
    }

    /** A hand of one card and a bet: the default hand with that card added. */
    constructor (card: Card, bet: nat)
      ensures cards == [card] && value == CardValue(card) && status == InPlay
      ensures splits == 0 && this.bet == bet && winnings == 0
      ensures Consistent()
    {
      cards, value, status, splits, this.bet, winnings := [], Value(false, 0), InPlay, 0, bet, 0;
      new;
      AddCard(card);
    }

    /**
     * `hand += card`: the card is valued and kept; the hand busts over 21, is a blackjack
     * on a two-card 21, stands on any other 21, and stays in play below.
     */
    method AddCard(c: Card)
      modifies this
      ensures cards == old(cards) + [c]
      ensures value == old(value).Add(CardValue(c))
      ensures status == Bust <==> value.total >= 22
      ensures status == Blackjack <==> value.total == 21 && |cards| == 2
      ensures status == Stood <==> value.total == 21 && |cards| != 2
      ensures status == InPlay <==> value.total <= 20
      ensures bet == old(bet) && splits == old(splits) && winnings == old(winnings)
      ensures old(Consistent()) ==> Consistent()
    {
      ValueOfAppend(cards, c);
      value := value.Add(CardValue(c));
      cards := cards + [c];
      status := PlayerStatus(value.total, |cards|);
    }

    method Stand()
      modifies this
      ensures status == Stood
      ensures cards == old(cards) && value == old(value) && bet == old(bet)
      ensures splits == old(splits) && winnings == old(winnings)
    {
      status := Stood;
    }

    /** Double down: the bet doubles, the card is added, and a hand still in play stands. */
    method Double(c: Card)
      modifies this
      ensures bet == 2 * old(bet)
      ensures cards == old(cards) + [c] && value == old(value).Add(CardValue(c))
      ensures status != InPlay
      ensures status == (if value.total <= 20 then Stood else PlayerStatus(value.total, |cards|))
      ensures splits == old(splits) && winnings == old(winnings)
      ensures old(Consistent()) ==> Consistent()
    {
      bet := bet * 2;
      AddCard(c);
      if status == InPlay {
        status := Stood;
      }
    }

    predicate IsPair()
      reads this
      ensures IsPair() ==> |cards| == 2 && Worth(cards[0].rank) == Worth(cards[1].rank)
    {
      |cards| == 2 && cards[0].rank == cards[1].rank
    }

    /**
     * Split a pair: this hand keeps its first card, valued as that card alone; the new hand
     * takes the second card and the same bet, and counts one split more.
     */
    method Split() returns (other: LegacyPlayerHand)
      requires IsPair()
      modifies this
      ensures fresh(other)
      ensures cards == [old(cards)[0]] && value == CardValue(cards[0])
      ensures other.cards == [old(cards)[1]] && other.value == CardValue(other.cards[0]) && other.status == InPlay
      ensures cards + other.cards == old(cards)
      ensures other.bet == bet == old(bet) && other.splits == old(splits) + 1 && other.winnings == 0
      ensures status == old(status) && splits == old(splits) && winnings == old(winnings)
      ensures Consistent() && other.Consistent()
    {
      var second := cards[1];
      cards := [cards[0]];
      value := CardValue(cards[0]);
      other := new LegacyPlayerHand(second, bet);
      other.splits := splits + 1;
      assert cards[..0] == [];
    }

    method Surrender()
      modifies this
      ensures status == Surrendered
      ensures cards == old(cards) && value == old(value) && bet == old(bet)
      ensures splits == old(splits) && winnings == old(winnings)
    {
      status := Surrendered;
    }

    /**
     * Whether the first card is worth one of the two values. Meant for two-card hands whose
     * worths add up to the two values, where it says the hand is made of exactly them.
     */
    function ComposedOf(worth1: nat, worth2: nat): (b: bool)
      reads this
      requires |cards| > 0
      ensures |cards| == 2 && Worth(cards[0].rank) + Worth(cards[1].rank) == worth1 + worth2 ==>
                (b <==> multiset{Worth(cards[0].rank), Worth(cards[1].rank)} == multiset{worth1, worth2})
    {
      var first := Worth(cards[0].rank);
      assert |cards| == 2 && first + Worth(cards[1].rank) == worth1 + worth2 ==>
               (first == worth1 || first == worth2 <==> multiset{first, Worth(cards[1].rank)} == multiset{worth1, worth2}) by {
        if |cards| == 2 && first + Worth(cards[1].rank) == worth1 + worth2 {
          var m := multiset{first, Worth(cards[1].rank)};
          if m == multiset{worth1, worth2} {
            assert first in multiset{worth1, worth2};
          }
        }
      }
      first == worth1 || first == worth2
    }

    /**
     * Store the hand's winnings once the dealer's hand is finished, by the same case table
     * as the core's, a blackjack paying 6:5 or 3:2.
     */
    method CalculateWinnings(dealer: LegacyDealerHand, sixToFive: bool)
      modifies this
      ensures winnings == HandWinnings(status, value.total, bet, dealer.status, dealer.value.total,
                                       if sixToFive then SixToFive else ThreeToTwo)
      ensures cards == old(cards) && value == old(value) && status == old(status)
      ensures bet == old(bet) && splits == old(splits)
    {
      if status == Surrendered {
        winnings := bet / 2;
      } else if status == Blackjack && dealer.status == Blackjack {
        winnings := bet;
      } else if status == Blackjack {
        winnings := if sixToFive then bet + bet * 6 / 5 else bet + bet * 3 / 2;
      } else if dealer.status == Blackjack || status == Bust {
        winnings := 0;
      } else if dealer.status == Bust {
        winnings := bet * 2;
      } else if value.total > dealer.value.total {
        winnings := bet * 2;
      } else if value.total == dealer.value.total {
        winnings := bet;
      } else {
        winnings := 0;
      }
    }
  }

  /** Entries bounded by m sum to at most m per entry. */
  lemma {:induction false} SumBoundedEntries(s: seq<nat>, m: nat)
    requires forall i :: 0 <= i < |s| ==> s[i] <= m
    ensures Sum(s) <= |s| * m
  {
    if s != [] {
      SumBoundedEntries(s[1..], m);
    }
  }

  /**
   * The shoe: several decks, with the copies left of each of the 52 cards in an array
   * indexed by ordinal. The card drawn is random in the Rust code; here it is the
   * parameter `pick`, which must name a card with a copy left.
   */
  class LegacyShoe {
    const decks: nat
    /** The played share that calls for a shuffle, as thresholdNum / thresholdDen. */
    const thresholdNum: nat
    const thresholdDen: nat
    const remaining: array<nat>

    /** Every card count is within the deck count, and some card is left. */
    ghost predicate Valid()
      reads this, remaining
    {
      && 0 < decks <= 255 && thresholdDen > 0
      && remaining.Length == 52
      && (forall i :: 0 <= i < 52 ==> remaining[i] <= decks)
      && Sum(remaining[..]) > 0
    }

    /** A full shoe; a deck count of 0 makes the Rust code fail at once. */
    constructor (decks: nat, thresholdNum: nat, thresholdDen: nat)
      requires 0 < decks <= 255 && thresholdDen > 0
      ensures Valid() && fresh(remaining)
      ensures this.decks == decks && this.thresholdNum == thresholdNum && this.thresholdDen == thresholdDen
      ensures remaining[..] == Shoes.FullWeights(decks)
    {
      this.decks, this.thresholdNum, this.thresholdDen := decks, thresholdNum, thresholdDen;
      remaining := new nat[52](_ => decks);
      new;
      assert remaining[..] == Shoes.FullWeights(decks);
    }

    /**
     * Draw the card with ordinal `pick`: one copy fewer of it is left, so the cards left
     * sum to one less, unless that was the last card, when the shoe is shuffled.
     */
    method DrawCard(pick: nat) returns (card: Card)
      requires Valid() && pick < 52 && remaining[pick] > 0
      modifies remaining
      ensures Valid()
      ensures card == FromOrdinal(pick)
      ensures old(Sum(remaining[..])) == 1 ==> remaining[..] == Shoes.FullWeights(decks)
      ensures old(Sum(remaining[..])) > 1 ==>
                && remaining[..] == old(remaining[..])[pick := old(remaining[pick]) - 1]
                && Sum(remaining[..]) + 1 == old(Sum(remaining[..]))
    {
      SumDecrement(remaining[..], pick);
      remaining[pick] := remaining[pick] - 1;
      assert remaining[..] == old(remaining[..])[pick := old(remaining[pick]) - 1];
      if Sum(remaining[..]) == 0 {
        Shuffle();
      }
      card := FromOrdinal(pick);
    }

    /** Whether the share of the shoe played has reached the threshold. */
    function NeedsShuffle(): (b: bool)
      reads this, remaining
      requires Valid()
      ensures thresholdNum == 0 ==> b
      ensures Sum(remaining[..]) == decks * 52 ==> (b <==> thresholdNum == 0)
    {
      SumBoundedEntries(remaining[..], decks);
      (decks * 52 - Sum(remaining[..])) * thresholdDen >= thresholdNum * (decks * 52)
    }

    /** Put every card back. */
    method Shuffle()
      requires 0 < decks <= 255 && thresholdDen > 0 && remaining.Length == 52
      modifies remaining
      ensures Valid()
      ensures remaining[..] == Shoes.FullWeights(decks)
    {
      forall i | 0 <= i < 52 {
        remaining[i] := decks;
      }
      assert remaining[..] == Shoes.FullWeights(decks);
    }
  }
}
