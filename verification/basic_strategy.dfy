/**
 * The basic-strategy advisor: a player who looks up every decision in the standard
 * tables. Each table maps the hand's total and the dealer's up card to a preferred
 * action, and the preference falls back to a plain action when the table's rules
 * refuse it. A table lookup outside its range stops the Rust code (it panics); here it
 * is None.
 */
module BasicStrategy {
  import opened Common
  import opened Cards
  import opened TableRules
  import opened Hands
  import opened Turns
  import opened State
  import G = Game

  /** The flat bet the advisor always places. */
  function Bet(): nat {
    100
  }

  /** The advisor never takes insurance. */
  function BetInsurance(): nat {
    0
  }

  /** The advisor's bet is taken at a table with the default limits. */
  lemma AdvisedBetAccepted()
    ensures G.PlaceBet(DefaultRules(), Bet()) == Ok(DealFirstPlayerCards([Bet()], []))
  {
  }

  // ---------------------------------------------------------------------------------
  // Hand composition

  /** The worth of each card of a hand, in order. */
  function Worths(cards: seq<Card>): (ws: seq<nat>)
    ensures |ws| == |cards|
    ensures forall i :: 0 <= i < |cards| ==> ws[i] == Worth(cards[i].rank)
  {
    if cards == [] then [] else Worths(cards[..|cards| - 1]) + [Worth(cards[|cards| - 1].rank)]
  }

  /** The hand's cards are worth exactly the given values, in any order (`composed!`). */
  predicate ComposedOf(hand: PlayerHand, values: seq<nat>) {
    multiset(Worths(hand.cards)) == multiset(values)
  }

  /** A hand composed of n values holds exactly n cards, each worth one of them. */
  lemma ComposedSize(hand: PlayerHand, values: seq<nat>)
    requires ComposedOf(hand, values)
    ensures |hand.cards| == |values|
    ensures forall i :: 0 <= i < |hand.cards| ==> Worth(hand.cards[i].rank) in values
  {
    var ws := Worths(hand.cards);
    assert |multiset(ws)| == |ws|;
    forall i | 0 <= i < |hand.cards| ensures Worth(hand.cards[i].rank) in values {
      assert ws[i] in multiset(ws);
    }
  }

  // ---------------------------------------------------------------------------------
  // Surrender

  /**
   * `surrender_late`: late surrender is advised only on a 14 to 17 against a 9, a 10 or an
   * ace, and on a 14 only for a pair with a single deck.
   */
  function SurrenderLate(decks: nat, hand: PlayerHand, dealer: DealerHand): (r: bool)
    requires |dealer.cards| > 0
    ensures r ==> 14 <= hand.value.total <= 17 && dealer.Showing() >= 9
    ensures r && hand.value.total == 14 ==> decks == 1 && hand.IsPair()
    ensures r && dealer.Showing() == 9 ==> hand.value.total == 16 && decks >= 4
  {
    var t, s, hits := hand.value.total, dealer.Showing(), dealer.HitsOnSoft17();
    if t == 14 && s == 10 then decks == 1 && hand.IsPair()
    else if t == 14 && s == 11 then decks == 1 && hand.IsPair() && hits
    else if t == 15 && s == 10 && decks < 8 then ComposedOf(hand, [9, 6]) || ComposedOf(hand, [10, 5])
    else if t == 15 && s == 10 && decks >= 8 then true
    else if t == 15 && s == 11 && decks < 4 then hits && (ComposedOf(hand, [9, 6]) || ComposedOf(hand, [10, 5]))
    else if t == 15 && s == 11 && decks >= 4 then true
    else if t == 16 && s == 9 then decks >= 4
    else if t == 16 && s == 10 then true
    else if t == 16 && s == 11 && decks == 1 && !hits then ComposedOf(hand, [10, 6])
    else if t == 16 && s == 11 && decks <= 2 && hits then ComposedOf(hand, [9, 7]) || ComposedOf(hand, [10, 6])
    else if t == 16 && s == 11 && decks == 2 && !hits then true
    else if t == 16 && s == 11 && decks > 2 then true
    else if (t == 15 || t == 17) && s == 11 then hits
    else false
  }

  /**
   * `surrender_early_hard`: a hard 5 to 7 or 12 to 17 surrenders early against an ace,
   * a hard 14 to 16 against a 10, and nothing else does.
   */
  function SurrenderEarlyHard(hand: PlayerHand, dealer: DealerHand): (r: bool)
    requires |dealer.cards| > 0
    ensures r ==> dealer.Showing() >= 10
    ensures r ==> 5 <= hand.value.total <= 7 || 12 <= hand.value.total <= 17
    ensures r && dealer.Showing() == 10 ==> 14 <= hand.value.total <= 16
    ensures ((dealer.Showing() == 11 && (5 <= hand.value.total <= 7 || 12 <= hand.value.total <= 17))
             || (dealer.Showing() == 10 && 14 <= hand.value.total <= 16)) ==> r
  {
    var t, s := hand.value.total, dealer.Showing();
    if 5 <= t <= 7 && s == 11 then true
    else if 12 <= t <= 17 && s == 11 then true
    else if 14 <= t <= 16 && s == 10 then true
    else false
  }

  /** The early-surrender table for pairs, keyed on the rank of the pair (2 to 11). */
  function SurrenderEarlyPairTable(key: nat, dealer: DealerHand, decks: nat, doubleAfterSplit: bool): (r: bool)
    requires |dealer.cards| > 0
    ensures r ==> dealer.Showing() >= 10 && (key == 2 || key == 3 || 6 <= key <= 8)
  {
    var s := dealer.Showing();
    if key == 8 && s == 10 && decks == 1 && doubleAfterSplit then false
    else if (7 <= key <= 8 && s == 10) || ((key == 3 || 6 <= key <= 8) && s == 11) then true
    else if key == 2 && s == 11 && dealer.HitsOnSoft17() then true
    else false
  }

  /**
   * `surrender_early_pair` as written: the pair is keyed on half the hand's total, so a
   * pair of aces (a soft 12) is looked up as a pair of sixes.
   */
  function SurrenderEarlyPairAsWritten(hand: PlayerHand, dealer: DealerHand, decks: nat, doubleAfterSplit: bool): (r: bool)
    requires |dealer.cards| > 0
    ensures r ==> dealer.Showing() >= 10
  {
    SurrenderEarlyPairTable(hand.value.total / 2, dealer, decks, doubleAfterSplit)
  }

  /** The early-surrender advice for a pair, keyed on the worth of the paired card. */
  function SurrenderEarlyPair(hand: PlayerHand, dealer: DealerHand, decks: nat, doubleAfterSplit: bool): (r: bool)
    requires hand.IsPair() && |dealer.cards| > 0
    ensures r ==> dealer.Showing() >= 10
    ensures hand.cards[0].rank == Ace ==> !r
    ensures Worth(hand.cards[0].rank) == 10 ==> !r
  {
    SurrenderEarlyPairTable(Worth(hand.cards[0].rank), dealer, decks, doubleAfterSplit)
  }

  /**
   * `surrender_early`: a soft hand that is not a pair never surrenders early; other hands
   * use the hard or the pair table.
   */
  function SurrenderEarly(decks: nat, rules: Rules, hand: PlayerHand, dealer: DealerHand): (r: bool)
    requires |dealer.cards| > 0
    ensures hand.value.soft && !hand.IsPair() ==> !r
    ensures !hand.value.soft && !hand.IsPair() ==> r == SurrenderEarlyHard(hand, dealer)
    ensures r ==> dealer.Showing() >= 10
  {
    if hand.IsPair() then SurrenderEarlyPair(hand, dealer, decks, rules.doubleAfterSplit)
    else if hand.value.soft then false
    else SurrenderEarlyHard(hand, dealer)
  }

  // ---------------------------------------------------------------------------------
  // Playing a hand

  /** The advice of a table, with the fallback to take when the rules refuse the first choice. */
  datatype PreferredAction =
    | Stand
    | Hit
    | Split
    | DoubleOrHit
    | DoubleOrStand
    | SurrenderOrHit
    | SurrenderOrStand
    | SurrenderOrSplit
    | SplitIfDoubleAfterSplitAllowedElseHit
  {
    /** The advice may end in a split. */
    predicate MaySplit() {
      Split? || SurrenderOrSplit? || SplitIfDoubleAfterSplitAllowedElseHit?
    }
  }

  /** `make_move_hard`: the table for hard totals 4 to 21 against up cards 2 to 11. */
  function MakeMoveHard(decks: nat, hand: PlayerHand, dealer: DealerHand): (r: Option<PreferredAction>)
    requires |dealer.cards| > 0
    ensures r.Some? <==> 4 <= hand.value.total <= 21
    ensures r.Some? ==> !r.value.MaySplit()
  {
    var t, s, hits := hand.value.total, dealer.Showing(), dealer.HitsOnSoft17();
    if 4 <= t <= 8 then Some(Hit)
    else if t == 9 && s == 2 then Some(if decks <= 2 then DoubleOrHit else Hit)
    else if t == 9 && 3 <= s <= 6 then Some(DoubleOrHit)
    else if t == 9 && 7 <= s then Some(Hit)
    else if t == 10 && s <= 9 then Some(DoubleOrHit)
    else if t == 10 then Some(Hit)
    else if t == 11 && s <= 10 then Some(DoubleOrHit)
    else if t == 11 then Some(if decks <= 2 || hits then DoubleOrHit else Hit)
    else if t == 12 && s <= 3 then Some(Hit)
    else if t == 12 && s <= 6 then Some(Stand)
    else if 12 <= t <= 14 && 7 <= s then Some(Hit)
    else if 13 <= t <= 16 && s <= 6 then Some(Stand)
    else if t == 15 && s <= 9 then Some(Hit)
    else if t == 15 && s == 10 then Some(SurrenderOrHit)
    else if t == 15 then Some(if hits then SurrenderOrHit else Hit)
    else if t == 16 && s <= 8 then Some(Hit)
    else if t == 16 then Some(SurrenderOrHit)
    else if t == 17 && s <= 10 then Some(Stand)
    else if t == 17 then Some(if hits then SurrenderOrStand else Stand)
    else if 18 <= t <= 21 then Some(Stand)
    else None
  }

  /**
   * `make_move_soft` as written: the table covers soft 13 to 21 only, so a soft 12 (a
   * pair of aces that may not be split) reaches the panic.
   */
  function MakeMoveSoftAsWritten(hand: PlayerHand, dealer: DealerHand): (r: Option<PreferredAction>)
    requires |dealer.cards| > 0
    ensures r.Some? <==> 13 <= hand.value.total <= 21
    ensures r.Some? ==> !r.value.MaySplit()
  {
    var t, s, hits := hand.value.total, dealer.Showing(), dealer.HitsOnSoft17();
    if (t == 13 || t == 14) && s <= 4 then Some(Hit)
    else if (t == 13 || t == 14) && s <= 6 then Some(DoubleOrHit)
    else if (t == 15 || t == 16) && s <= 3 then Some(Hit)
    else if (t == 15 || t == 16) && s <= 6 then Some(DoubleOrHit)
    else if t == 17 && s == 2 then Some(Hit)
    else if t == 17 && s <= 6 then Some(DoubleOrHit)
    else if 13 <= t <= 17 then Some(Hit)
    else if t == 18 && s == 2 then Some(if hits then DoubleOrStand else Stand)
    else if t == 18 && s <= 6 then Some(DoubleOrStand)
    else if t == 18 && s <= 8 then Some(Stand)
    else if t == 18 then Some(Hit)
    else if t == 19 && s <= 5 then Some(Stand)
    else if t == 19 && s == 6 then Some(if hits then DoubleOrStand else Stand)
    else if t == 19 then Some(Stand)
    else if t == 20 || t == 21 then Some(Stand)
    else None
  }

  /** The soft table completed: a soft 12 hits; every other soft total is looked up as written. */
  function MakeMoveSoft(hand: PlayerHand, dealer: DealerHand): (r: Option<PreferredAction>)
    requires |dealer.cards| > 0
    ensures r.Some? <==> 12 <= hand.value.total <= 21
    ensures r.Some? ==> !r.value.MaySplit()
    ensures hand.value.total != 12 ==> r == MakeMoveSoftAsWritten(hand, dealer)
  {
    if hand.value.total == 12 then Some(Hit) else MakeMoveSoftAsWritten(hand, dealer)
  }

  /** The pair table, keyed on the rank of the pair (2 to 11); a pair of tens always stands. */
  function PairTable(key: nat, dealer: DealerHand): (r: Option<PreferredAction>)
    requires |dealer.cards| > 0
    ensures r.Some? <==> 2 <= key <= 11
    ensures key == 10 ==> r == Some(Stand)
    ensures key == 11 ==> r == Some(Split)
  {
    var s := dealer.Showing();
    if (key == 2 || key == 3) && s <= 3 then Some(SplitIfDoubleAfterSplitAllowedElseHit)
    else if (key == 2 || key == 3) && s <= 7 then Some(Split)
    else if key == 2 || key == 3 then Some(Hit)
    else if key == 4 && s <= 4 then Some(Hit)
    else if key == 4 && s <= 6 then Some(SplitIfDoubleAfterSplitAllowedElseHit)
    else if key == 4 then Some(Hit)
    else if key == 5 && s <= 9 then Some(DoubleOrHit)
    else if key == 5 then Some(Hit)
    else if key == 6 && s == 2 then Some(SplitIfDoubleAfterSplitAllowedElseHit)
    else if key == 6 && s <= 6 then Some(Split)
    else if key == 6 then Some(Hit)
    else if key == 7 && s <= 7 then Some(Split)
    else if key == 7 then Some(Hit)
    else if key == 8 && s <= 10 then Some(Split)
    else if key == 8 then Some(if dealer.HitsOnSoft17() then SurrenderOrSplit else Split)
    else if key == 9 && s <= 6 then Some(Split)
    else if key == 9 && s == 7 then Some(Stand)
    else if key == 9 && s <= 9 then Some(Split)
    else if key == 9 then Some(Stand)
    else if key == 10 then Some(Stand)
    else if key == 11 then Some(Split)
    else None
  }

  /**
   * `make_move_splittable` as written: the pair is keyed on half the hand's total, so a
   * pair of aces (a soft 12) is looked up as a pair of sixes.
   */
  function MakeMoveSplittableAsWritten(hand: PlayerHand, dealer: DealerHand): (r: Option<PreferredAction>)
    requires |dealer.cards| > 0
    ensures r.Some? <==> 4 <= hand.value.total <= 23
  {
    PairTable(hand.value.total / 2, dealer)
  }

  /** The pair table keyed on the worth of the paired card: aces always split, tens always stand. */
  function MakeMoveSplittable(hand: PlayerHand, dealer: DealerHand): (r: Option<PreferredAction>)
    requires hand.IsPair() && |dealer.cards| > 0
    ensures r.Some?
    ensures hand.cards[0].rank == Ace ==> r == Some(Split)
    ensures Worth(hand.cards[0].rank) == 10 ==> r == Some(Stand)
  {
    PairTable(Worth(hand.cards[0].rank), dealer)
  }

  /** A consistent pair's total is twice the paired card's worth, except for aces, a soft 12. */
  lemma PairTotal(hand: PlayerHand)
    requires hand.IsPair() && hand.value == ValueOf(hand.cards)
    ensures hand.cards[0].rank == Ace ==> hand.value == Value(true, 12)
    ensures hand.cards[0].rank != Ace ==> hand.value == Value(false, 2 * Worth(hand.cards[0].rank))
  {
    var cards := hand.cards;
    assert cards[..1][..0] == [];
    assert cards[..|cards| - 1] == cards[..1];
    assert ValueOf(cards[..1]) == CardValue(cards[0]);
    assert ValueOf(cards) == CardValue(cards[0]).Add(CardValue(cards[1]));
  }

  /** Keyed either way, every pair but aces gets the same advice. */
  lemma PairKeysAgree(hand: PlayerHand, dealer: DealerHand, decks: nat, doubleAfterSplit: bool)
    requires hand.IsPair() && hand.value == ValueOf(hand.cards) && hand.cards[0].rank != Ace
    requires |dealer.cards| > 0
    ensures MakeMoveSplittable(hand, dealer) == MakeMoveSplittableAsWritten(hand, dealer)
    ensures SurrenderEarlyPair(hand, dealer, decks, doubleAfterSplit)
            == SurrenderEarlyPairAsWritten(hand, dealer, decks, doubleAfterSplit)
  {
    PairTotal(hand);
  }

  /** A preferred action resolved against the rules: a refused double, surrender or split falls back. */
  function Resolve(preferred: PreferredAction, rules: Rules, turn: ActiveTurn): (a: G.HandAction)
    requires turn.Valid()
    ensures a == G.HandAction.Double ==> G.CheckDoubleAllowed(rules, turn).Ok?
    ensures a == G.HandAction.Surrender ==> G.CheckSurrenderAllowed(rules, turn.CurrentHand()).Ok?
    ensures a == G.HandAction.Split ==> preferred.MaySplit()
  {
    match preferred
    case Stand => G.HandAction.Stand
    case Hit => G.HandAction.Hit
    case Split => G.HandAction.Split
    case DoubleOrHit => if G.CheckDoubleAllowed(rules, turn).Ok? then G.HandAction.Double else G.HandAction.Hit
    case DoubleOrStand => if G.CheckDoubleAllowed(rules, turn).Ok? then G.HandAction.Double else G.HandAction.Stand
    case SurrenderOrHit =>
      if G.CheckSurrenderAllowed(rules, turn.CurrentHand()).Ok? then G.HandAction.Surrender else G.HandAction.Hit
    case SurrenderOrStand =>
      if G.CheckSurrenderAllowed(rules, turn.CurrentHand()).Ok? then G.HandAction.Surrender else G.HandAction.Stand
    case SurrenderOrSplit =>
      if G.CheckSurrenderAllowed(rules, turn.CurrentHand()).Ok? then G.HandAction.Surrender else G.HandAction.Split
    case SplitIfDoubleAfterSplitAllowedElseHit => if rules.doubleAfterSplit then G.HandAction.Split else G.HandAction.Hit
  }

  /**
   * `play_hand`: a pair the rules let split is looked up in the pair table, otherwise a
   * soft or hard hand in its table; the advice is then resolved against the rules. It
   * advises a double, a surrender or a split only when the engine's check allows it.
   */
  function PlayHand(decks: nat, rules: Rules, turn: ActiveTurn, dealer: DealerHand): (r: Option<G.HandAction>)
    requires turn.Valid() && |dealer.cards| > 0
    ensures r == Some(G.HandAction.Double) ==> G.CheckDoubleAllowed(rules, turn).Ok?
    ensures r == Some(G.HandAction.Surrender) ==> G.CheckSurrenderAllowed(rules, turn.CurrentHand()).Ok?
    ensures r == Some(G.HandAction.Split) ==> G.CheckSplitAllowed(rules, turn).Ok?
  {
    var hand := turn.CurrentHand();
    var preferred :=
      if G.CheckSplitAllowed(rules, turn).Ok? then MakeMoveSplittable(hand, dealer)
      else if hand.value.soft then MakeMoveSoft(hand, dealer)
      else MakeMoveHard(decks, hand, dealer);
    if preferred.None? then None else Some(Resolve(preferred.value, rules, turn))
  }

  /** A hand of two or more consistent cards totals at least 4, and a soft one at least 12. */
  lemma DealtTotals(hand: PlayerHand)
    requires |hand.cards| >= 2 && hand.value == ValueOf(hand.cards)
    ensures hand.value.total >= 4
    ensures hand.value.soft ==> hand.value.total >= 12
  {
    ValueOfIsBestTotal(hand.cards);
    HardSumBounds(hand.cards);
  }

  /**
   * Whenever the engine asks the player to act, the advisor has an answer, and the engine
   * accepts it: the answer never leaves the current state unchanged with an error.
   */
  lemma AdviceAccepted(decks: nat, rules: Rules, p: seq<PendingTurn>, c: ActiveTurn, f: seq<FinishedTurn>, d: DealerHand)
    requires WellFormed(PlayPlayerTurn(p, c, f, d))
    ensures PlayHand(decks, rules, c, d).Some?
    ensures G.ChooseAction(rules, p, c, f, d, PlayHand(decks, rules, c, d).value).Ok?
  {
    var hand := c.CurrentHand();
    assert Consistent(hand) && |hand.cards| >= 2;
    DealtTotals(hand);
  }

  // ---------------------------------------------------------------------------------
  // Where the tables as written go wrong

  /** A pair of aces, the table's first hand and the dealer's up card. */
  function AcePair(): PlayerHand {
    NewPlayerHand(Card(Ace, Spades), 100).Add(Card(Ace, Hearts))
  }

  lemma AcePairValue()
    ensures AcePair().cards == [Card(Ace, Spades), Card(Ace, Hearts)]
    ensures AcePair().IsPair() && AcePair().status == InPlay
    ensures AcePair().value == Value(true, 12) == ValueOf(AcePair().cards)
  {
    var cards := AcePair().cards;
    assert cards[..1] == [Card(Ace, Spades)];
    assert cards[..1][..0] == [];
  }

  /**
   * A pair of aces at a table that does not split aces is a soft 12 with no split
   * allowed, so it is looked up in the soft table, which as written has no entry for it.
   * The completed table hits.
   */
  lemma SoftTwelveHasNoEntry(decks: nat, up: Card)
    ensures var rules := DefaultRules().(splitAces := false);
            var turn := ActiveFrom(PendingFrom(AcePair()));
            var dealer := NewDealerHand(up, StandOnSoft17);
            && WellFormed(PlayPlayerTurn([], turn, [], dealer))
            && G.CheckSplitAllowed(rules, turn) == Err(G.SplitAcesNotAllowed)
            && MakeMoveSoftAsWritten(AcePair(), dealer).None?
            && PlayHand(decks, rules, turn, dealer) == Some(G.HandAction.Hit)
  {
    AcePairValue();
    var turn := ActiveFrom(PendingFrom(AcePair()));
    assert turn.hands == [AcePair()];
  }

  /**
   * As written, a pair of aces is looked up as a pair of sixes: against a 7 it hits
   * instead of splitting, and the table's entry for aces is never used.
   */
  lemma AcePairLookedUpAsSixes(decks: nat)
    ensures var dealer := NewDealerHand(Card(Seven, Clubs), StandOnSoft17);
            var turn := ActiveFrom(PendingFrom(AcePair()));
            && MakeMoveSplittableAsWritten(AcePair(), dealer) == Some(Hit)
            && MakeMoveSplittable(AcePair(), dealer) == Some(Split)
            && PlayHand(decks, DefaultRules(), turn, dealer) == Some(G.HandAction.Split)
  {
    AcePairValue();
    var turn := ActiveFrom(PendingFrom(AcePair()));
    assert turn.hands == [AcePair()];
  }

  /** No consistent pair reaches the pair table's entry for aces when keyed on half the total. */
  lemma AceKeyUnreachable(hand: PlayerHand)
    requires hand.IsPair() && hand.value == ValueOf(hand.cards)
    ensures hand.value.total / 2 != 11
  {
    PairTotal(hand);
  }

  /**
   * As written, a pair of aces against an ace is looked up as a pair of sixes, which
   * surrenders early; keyed on the card, aces never surrender.
   */
  lemma AcePairSurrendersEarly(decks: nat, doubleAfterSplit: bool)
    ensures var dealer := NewDealerHand(Card(Ace, Clubs), StandOnSoft17);
            && SurrenderEarlyPairAsWritten(AcePair(), dealer, decks, doubleAfterSplit)
            && !SurrenderEarlyPair(AcePair(), dealer, decks, doubleAfterSplit)
  {
    AcePairValue();
  }
}
