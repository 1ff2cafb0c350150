/** Cards: suits, ranks, what a rank is worth, and the 0..51 ordinal used by the shoe. */
module Cards {

  datatype Suit = Clubs | Diamonds | Hearts | Spades

  datatype Rank = Two | Three | Four | Five | Six | Seven | Eight | Nine | Ten | Jack | Queen | King | Ace

  /** A card is a rank and a suit; the model never duplicates one, it only moves it. */
  datatype Card = Card(rank: Rank, suit: Suit)

  /** The rank's position in declaration order (`rank as usize`). */
  function RankIndex(r: Rank): (i: nat)
    ensures i < 13
  {
    match r
    case Two => 0 case Three => 1 case Four => 2 case Five => 3 case Six => 4
    case Seven => 5 case Eight => 6 case Nine => 7 case Ten => 8 case Jack => 9
    case Queen => 10 case King => 11 case Ace => 12
  }

  /** The suit's position in declaration order (`suit as usize`). */
  function SuitIndex(s: Suit): (i: nat)
    ensures i < 4
  {
    match s
    case Clubs => 0 case Diamonds => 1 case Hearts => 2 case Spades => 3
  }

  /** What a card of this rank is worth: face cards 10, aces 11. */
  function Worth(r: Rank): (w: nat)
    ensures 2 <= w <= 11
    ensures w == 11 <==> r == Ace
    ensures w == 10 <==> r in {Ten, Jack, Queen, King}
    ensures w <= 9 ==> w == RankIndex(r) + 2
  {
    match r
    case Two => 2 case Three => 3 case Four => 4 case Five => 5 case Six => 6
    case Seven => 7 case Eight => 8 case Nine => 9
    case Ten => 10 case Jack => 10 case Queen => 10 case King => 10
    case Ace => 11
  }

  function RankAt(i: nat): Rank
    requires i < 13
  {
    if i == 0 then Two else if i == 1 then Three else if i == 2 then Four
    else if i == 3 then Five else if i == 4 then Six else if i == 5 then Seven
    else if i == 6 then Eight else if i == 7 then Nine else if i == 8 then Ten
    else if i == 9 then Jack else if i == 10 then Queen else if i == 11 then King
    else Ace
  }

  function SuitAt(i: nat): Suit
    requires i < 4
  {
    if i == 0 then Clubs else if i == 1 then Diamonds else if i == 2 then Hearts else Spades
  }

  /**
   * The card at a position of a deck sorted by rank, then suit: twos first.
   * An ordinal of 52 or more is a caller error (the source panics).
   */
  function FromOrdinal(ordinal: nat): (c: Card)
    requires ordinal < 52
    ensures RankIndex(c.rank) == ordinal / 4
    ensures SuitIndex(c.suit) == ordinal % 4
  {
    Card(RankAt(ordinal / 4), SuitAt(ordinal % 4))
  }

  /** The position of a card in the rank-major, suit-minor order. */
  function ToOrdinal(c: Card): (o: nat)
    ensures o < 52
  {
    RankIndex(c.rank) * 4 + SuitIndex(c.suit)
  }

  /** Every card is produced by exactly its own ordinal. */
  lemma FromOrdinalCoversEveryCard(c: Card)
    ensures FromOrdinal(ToOrdinal(c)) == c
  {
    var o := ToOrdinal(c);
    assert o / 4 == RankIndex(c.rank) && o % 4 == SuitIndex(c.suit);
    match c.rank {
      case Two => case Three => case Four => case Five => case Six => case Seven =>
      case Eight => case Nine => case Ten => case Jack => case Queen => case King => case Ace =>
    }
  }

  /** Distinct ordinals below 52 give distinct cards. */
  lemma FromOrdinalInjective(a: nat, b: nat)
    requires a < 52 && b < 52
    requires FromOrdinal(a) == FromOrdinal(b)
    ensures a == b
  {
    assert a == (a / 4) * 4 + a % 4;
    assert b == (b / 4) * 4 + b % 4;
  }

  /** Rank and suit positions identify a card. */
  lemma IndicesIdentifyCard(c: Card, d: Card)
    requires RankIndex(c.rank) == RankIndex(d.rank) && SuitIndex(c.suit) == SuitIndex(d.suit)
    ensures c == d
  {
  }
}
