/**
 * A deck as a multiset of cards: a 4 x 13 table of byte counts, one per suit and rank.
 */
module Decks {
  import opened Common
  import opened Cards

  datatype DeckError = NotEnoughCards | TooManyCards | InvalidCard

  class Deck {
    /** cards[suit, rank]: how many copies of that card the deck holds. */
    const cards: array2<nat>

    ghost predicate Valid()
      reads this, cards
    {
      && cards.Length0 == 4 && cards.Length1 == 13
      && forall s, r :: 0 <= s < 4 && 0 <= r < 13 ==> cards[s, r] <= 255
    }

    /** One standard deck: every card once. */
    constructor ()
      ensures Valid() && fresh(cards)
      ensures forall c: Card :: Count(c) == 1
    {
      cards := new nat[4, 13]((_, _) => 1);
    }

    /** The number of copies of a card. */
    function Count(c: Card): (n: nat)
      reads this, cards
      requires Valid()
      ensures n <= 255
    {
      cards[SuitIndex(c.suit), RankIndex(c.rank)]
    }

    /**
     * Multiply every count by n. A product past 255 makes the Rust code panic, so
     * callers must keep every product within a byte.
     */
    method Times(n: nat)
      requires Valid()
      requires forall s, r :: 0 <= s < 4 && 0 <= r < 13 ==> cards[s, r] * n <= 255
      modifies cards
      ensures Valid()
      ensures forall c: Card :: Count(c) == old(Count(c)) * n
    {
      var s := 0;
      while s < 4
        invariant 0 <= s <= 4
        invariant forall i, j :: 0 <= i < 4 && 0 <= j < 13 ==>
                    cards[i, j] == if i < s then old(cards[i, j]) * n else old(cards[i, j])
      {
        var r := 0;
        while r < 13
          invariant 0 <= r <= 13
          invariant forall i, j :: 0 <= i < 4 && 0 <= j < 13 ==>
                      cards[i, j] == if i < s || (i == s && j < r) then old(cards[i, j]) * n else old(cards[i, j])
        {
          cards[s, r] := cards[s, r] * n;
          r := r + 1;
        }
        s := s + 1;
      }
    }

    /** Put one more copy of a card in. A count already at 255 is refused and nothing changes. */
    method Add(c: Card) returns (r: Result<(), DeckError>)
      requires Valid()
      modifies cards
      ensures Valid()
      ensures r.Err? <==> old(Count(c)) == 255
      ensures r.Err? ==> r.error == TooManyCards && Count(c) == old(Count(c))
      ensures r.Ok? ==> Count(c) == old(Count(c)) + 1
      ensures forall d: Card :: d != c ==> Count(d) == old(Count(d))
    {
      var s, k := SuitIndex(c.suit), RankIndex(c.rank);
      if cards[s, k] == 255 {
        return Err(TooManyCards);
      }
      cards[s, k] := cards[s, k] + 1;
      forall d: Card | d != c ensures Count(d) == old(Count(d)) {
        if SuitIndex(d.suit) == s && RankIndex(d.rank) == k {
          IndicesIdentifyCard(c, d);
        }
      }
      return Ok(());
    }

    /** Take one copy of a card out. A count of 0 is refused and nothing changes. */
    method Remove(c: Card) returns (r: Result<(), DeckError>)
      requires Valid()
      modifies cards
      ensures Valid()
      ensures r.Err? <==> old(Count(c)) == 0
      ensures r.Err? ==> r.error == NotEnoughCards && Count(c) == old(Count(c))
      ensures r.Ok? ==> Count(c) + 1 == old(Count(c))
      ensures forall d: Card :: d != c ==> Count(d) == old(Count(d))
    {
      var s, k := SuitIndex(c.suit), RankIndex(c.rank);
      if cards[s, k] == 0 {
        return Err(NotEnoughCards);
      }
      cards[s, k] := cards[s, k] - 1;
      forall d: Card | d != c ensures Count(d) == old(Count(d)) {
        if SuitIndex(d.suit) == s && RankIndex(d.rank) == k {
          IndicesIdentifyCard(c, d);
        }
      }
      return Ok(());
    }
  }

  /** Adding a card that fits and then removing it succeeds both times and restores every count. */
  method AddThenRemove(deck: Deck, c: Card)
    requires deck.Valid() && deck.Count(c) < 255
    modifies deck.cards
    ensures deck.Valid()
    ensures forall d: Card :: deck.Count(d) == old(deck.Count(d))
  {
    var added := deck.Add(c);
    assert added.Ok?;
    var removed := deck.Remove(c);
    assert removed.Ok?;
  }
}
