/**
 * The shoe: several decks of cards, drawn without replacement and reshuffled
 * once a share of it has been played, or as soon as its last card is drawn.
 *
 * The remaining cards are a count per card ordinal (0..51). Which card is drawn
 * is random in the Rust code; here the drawn ordinal is a parameter, and any
 * ordinal with a copy left may be chosen.
 */
module Shoes {
  import opened Common
  import opened Cards

  /** Every ordinal at its full count: a freshly shuffled shoe. */
  function FullWeights(decks: nat): (w: seq<nat>)
    ensures |w| == 52 && Sum(w) == decks * 52
    ensures forall i :: 0 <= i < 52 ==> w[i] == decks
  {
    SumConstant(52, decks);
    seq(52, _ => decks)
  }

  /** a < b and 0 < c <= d give a * c < b * d. */
  lemma MulStrictLeft(a: nat, b: nat, c: nat, d: nat)
    requires a < b && 0 < c <= d
    ensures a * c < b * d
  {
    assert a * c < b * c;
    assert b * c <= b * d;
  }

  /**
   * How one draw of ordinal `pick` changes a shoe: one copy fewer of that card and one
   * more card drawn, or, when that was the last card, a freshly shuffled shoe.
   */
  twostate predicate Drew(shoe: Shoe, pick: nat)
    reads shoe
  {
    && (old(shoe.cardsDrawn) + 1 == shoe.decks * 52 ==> shoe.cardsDrawn == 0 && shoe.weights == FullWeights(shoe.decks))
    && (old(shoe.cardsDrawn) + 1 < shoe.decks * 52 ==>
          && pick < |old(shoe.weights)| && old(shoe.weights)[pick] > 0
          && shoe.cardsDrawn == old(shoe.cardsDrawn) + 1
          && shoe.weights == old(shoe.weights)[pick := old(shoe.weights)[pick] - 1])
  }

  class Shoe {
    /** The number of decks, a byte in 1..255. */
    const decks: nat
    /** The share of the shoe to play before a reshuffle, as the fraction penetrationNum / penetrationDen. */
    const penetrationNum: nat
    const penetrationDen: nat
    /** Cards drawn since the last shuffle. */
    var cardsDrawn: nat
    /** Copies left of each of the 52 distinct cards. */
    var weights: seq<nat>

    ghost predicate Valid()
      reads this
    {
      && 0 < decks <= 255 && penetrationDen > 0
      && |weights| == 52
      && (forall i :: 0 <= i < 52 ==> weights[i] <= decks)
      && cardsDrawn + Sum(weights) == decks * 52
      && cardsDrawn < decks * 52
    }

    /** A full shoe of `decks` decks. A zero deck count is refused by the Rust code (it panics). */
    constructor (decks: nat, penetrationNum: nat, penetrationDen: nat)
      requires 0 < decks <= 255 && penetrationDen > 0
      ensures Valid()
      ensures this.decks == decks && this.penetrationNum == penetrationNum && this.penetrationDen == penetrationDen
      ensures cardsDrawn == 0 && weights == FullWeights(decks)
    {
      this.decks := decks;
      this.penetrationNum := penetrationNum;
      this.penetrationDen := penetrationDen;
      cardsDrawn := 0;
      weights := FullWeights(decks);
    }

    /** Every state of a shoe has a card left to draw, so a draw always succeeds. */
    lemma CardAvailable()
      requires Valid()
      ensures exists i :: 0 <= i < 52 && weights[i] > 0
    {
      SumPositiveHasPositiveEntry(weights);
    }

    /**
     * Draw the card with ordinal `pick`: one copy fewer remains and one more card is
     * drawn, except that drawing the very last card reshuffles the shoe. So a shoe of
     * D decks reshuffles on exactly its D * 52nd draw, whatever cards were drawn.
     */
    method DrawCard(pick: nat) returns (card: Card)
      requires Valid() && pick < 52 && weights[pick] > 0
      modifies this
      ensures Valid()
      ensures card == FromOrdinal(pick)
      ensures Drew(this, pick)
    {
      SumDecrement(weights, pick);
      cardsDrawn := cardsDrawn + 1;
      weights := weights[pick := weights[pick] - 1];
      if Sum(weights) == 0 {
        Shuffle();
      }
      card := FromOrdinal(pick);
    }

    /**
     * Whether the played share has reached the threshold. A threshold of 0 asks for a
     * shuffle after every round; a threshold of 1 or more never does, leaving it to the
     * reshuffle on the last card.
     */
    function NeedsShuffle(): (b: bool)
      reads this
      requires Valid()
      ensures penetrationNum == 0 ==> b
      ensures penetrationNum >= penetrationDen ==> !b
    {
      assert penetrationNum >= penetrationDen ==> cardsDrawn * penetrationDen < penetrationNum * (decks * 52) by {
        if penetrationNum >= penetrationDen {
          MulStrictLeft(cardsDrawn, decks * 52, penetrationDen, penetrationNum);
        }
      }
      cardsDrawn * penetrationDen >= penetrationNum * (decks * 52)
    }

    /** Put every card back. */
    method Shuffle()
      requires 0 < decks <= 255 && penetrationDen > 0
      modifies this
      ensures Valid()
      ensures cardsDrawn == 0 && weights == FullWeights(decks)
    {
      cardsDrawn := 0;
      weights := FullWeights(decks);
    }
  }
}
