/** The choices a player of the older game makes. */
module LegacyInput {
  /** Before a turn: bet an amount, or leave the table. */
  datatype GameAction = Bet(amount: nat) | Quit

  /** The action taken on a hand. */
  datatype HandAction = Stand | Hit | Double | Split | Surrender
}

/**
 * The basic-strategy player of the older game. It bets a flat amount for a fixed number
 * of turns, never takes insurance, and looks every decision up in the standard tables:
 * the hand's total (or, for a pair, the worth of the paired card) against the dealer's
 * up card gives a preferred action, which falls back to a plain one when the game or the
 * player's chips refuse it. A table lookup outside its range stops the Rust code (it
 * panics); here it is None.
 */
module LegacyBasic {
  import opened Common
  import opened Cards
  import opened TableRules
  import opened Hands
  import opened LegacyCards
  import I = LegacyInput
  import BS = BasicStrategy

  /** What the player reads from the game: the deck count and three of its rules. */
  datatype Settings = Settings(decks: nat, soft17Hit: bool, doubleAfterSplit: bool, lateSurrender: bool)

  /** The player: how many turns are left to play, and the flat bet. */
  class LegacyBasicStrategy {
    var turns: nat
    const flatBet: nat

    constructor (turns: nat, flatBet: nat)
      ensures this.turns == turns && this.flatBet == flatBet
    {
      this.turns, this.flatBet := turns, flatBet;
    }

    /** Bet the flat amount while turns are left, one turn fewer each time; then quit. */
    method PlaceBetOrQuit() returns (a: I.GameAction)
      modifies this
      ensures old(turns) == 0 ==> a == I.Quit && turns == 0
      ensures old(turns) > 0 ==> a == I.Bet(flatBet) && turns == old(turns) - 1
    {
      if turns == 0 {
        a := I.Quit;
      } else {
        turns := turns - 1;
        a := I.Bet(flatBet);
      }
    }
  }

  /** Insurance is always declined, which stays within any limit the game sets. */
  function OfferInsurance(maxBet: nat): (r: nat)
    ensures r <= maxBet
  {
    0
  }

  // ---------------------------------------------------------------------------------
  // Early surrender

  /** The two hands the hard table keeps playing on a 14 against a 10. */
  predicate SurrenderException(s: Settings, hand: LegacyPlayerHand, dealer: LegacyDealerHand)
    reads hand, dealer
    requires |hand.cards| > 0 && |dealer.cards| > 0
  {
    && hand.value.total == 14 && dealer.Showing() == 10
    && ((s.decks <= 2 && hand.ComposedOf(10, 4)) || (s.decks == 1 && hand.ComposedOf(5, 9)))
  }

  /**
   * `surrender_early_hard`: surrender a 5 to 7 or a 12 to 17 against an ace, and a 14 to
   * 16 against a 10, except a 10 and a 4 with at most two decks and a 5 and a 9 with one.
   */
  function SurrenderEarlyHard(s: Settings, hand: LegacyPlayerHand, dealer: LegacyDealerHand): (r: bool)
    reads hand, dealer
    requires |hand.cards| > 0 && |dealer.cards| > 0
    ensures r ==> dealer.Showing() >= 10
    ensures r ==> 5 <= hand.value.total <= 7 || 12 <= hand.value.total <= 17
    ensures r && dealer.Showing() == 10 ==> 14 <= hand.value.total <= 16
    ensures SurrenderException(s, hand, dealer) ==> !r
    ensures ((dealer.Showing() == 11 && (5 <= hand.value.total <= 7 || 12 <= hand.value.total <= 17))
             || (dealer.Showing() == 10 && 14 <= hand.value.total <= 16))
            ==> r || SurrenderException(s, hand, dealer)
  {
    var t, up := hand.value.total, dealer.Showing();
    if t == 14 && up == 10 && s.decks <= 2 && hand.ComposedOf(10, 4) then false
    else if t == 14 && up == 10 && s.decks == 1 && hand.ComposedOf(5, 9) then false
    else if ((5 <= t <= 7 || 12 <= t <= 17) && up == 11) || (14 <= t <= 16 && up == 10) then true
    else false
  }

  /**
   * `surrender_early_pair`, keyed on the worth of the paired card: surrender 7s and 8s
   * against a 10 (but 8s with one deck and doubling after a split), 3s and 6s to 8s
   * against an ace, and 2s against an ace that hits a soft 17.
   */
  function SurrenderEarlyPair(s: Settings, hand: LegacyPlayerHand, dealer: LegacyDealerHand): (r: bool)
    reads hand, dealer
    requires |hand.cards| > 0 && |dealer.cards| > 0
    ensures r ==> dealer.Showing() >= 10
    ensures hand.cards[0].rank == Ace ==> !r
    ensures Worth(hand.cards[0].rank) == 10 ==> !r
  {
    var k, up := Worth(hand.cards[0].rank), dealer.Showing();
    if k == 8 && up == 10 && s.decks == 1 && s.doubleAfterSplit then false
    else if (7 <= k <= 8 && up == 10) || ((k == 3 || 6 <= k <= 8) && up == 11) then true
    else if k == 2 && up == 11 && s.soft17Hit then true
    else false
  }

  /**
   * `surrender_early`: a pair uses the pair table, a soft hand never surrenders, and a
   * hard hand uses the hard table.
   */
  function SurrenderEarly(s: Settings, hand: LegacyPlayerHand, dealer: LegacyDealerHand): (r: bool)
    reads hand, dealer
    requires |hand.cards| > 0 && |dealer.cards| > 0
    ensures hand.value.soft && !hand.IsPair() ==> !r
    ensures !hand.value.soft && !hand.IsPair() ==> r == SurrenderEarlyHard(s, hand, dealer)
    ensures hand.IsPair() ==> r == SurrenderEarlyPair(s, hand, dealer)
    ensures r ==> dealer.Showing() >= 10
  {
    if hand.IsPair() then SurrenderEarlyPair(s, hand, dealer)
    else if hand.value.soft then false
    else SurrenderEarlyHard(s, hand, dealer)
  }

  // ---------------------------------------------------------------------------------
  // The same hands seen by the newer advisor

  /** The player hand as the newer engine's value. */
  function CoreHand(hand: LegacyPlayerHand): (h: PlayerHand)
    reads hand
    ensures h.cards == hand.cards && h.value == hand.value && h.status == hand.status && h.bet == hand.bet
  {
    PlayerHand(hand.bet, hand.value, hand.status, hand.cards)
  }

  /** The dealer hand as the newer engine's value, hitting a soft 17 as the game says. */
  function CoreDealer(s: Settings, dealer: LegacyDealerHand): (d: DealerHand)
    reads dealer
    ensures d.cards == dealer.cards && d.value == dealer.value && d.status == dealer.status
    ensures d.HitsOnSoft17() == s.soft17Hit
  {
    DealerHand(dealer.value, dealer.status, dealer.cards, if s.soft17Hit then HitOnSoft17 else StandOnSoft17)
  }

  /**
   * The older early-surrender advice is the newer one with the two composition
   * exceptions taken out; for pairs it is the newer table keyed on the paired card.
   */
  lemma EarlySurrenderMatchesCore(s: Settings, hand: LegacyPlayerHand, dealer: LegacyDealerHand)
    requires |hand.cards| > 0 && |dealer.cards| > 0
    ensures SurrenderEarlyHard(s, hand, dealer)
            == (BS.SurrenderEarlyHard(CoreHand(hand), CoreDealer(s, dealer)) && !SurrenderException(s, hand, dealer))
    ensures hand.IsPair() ==>
              SurrenderEarlyPair(s, hand, dealer)
              == BS.SurrenderEarlyPair(CoreHand(hand), CoreDealer(s, dealer), s.decks, s.doubleAfterSplit)
  {
  }

  // ---------------------------------------------------------------------------------
  // Playing a hand

  /** The advice of a table, with the fallback to take when the first choice is refused. */
  datatype PreferredAction = Stand | Hit | Split | DoubleOrHit | DoubleOrStand | SurrenderOrHit | SplitOrHit
  {
    /**
     * `resolve`: the first choice when it is allowed, otherwise the fallback. A double,
     * a surrender or a conditional split happens only when allowed; a plain split always.
     */
    function Resolve(canDouble: bool, canSurrender: bool, canSplit: bool): (a: I.HandAction)
      ensures a == I.Double ==> canDouble && (DoubleOrHit? || DoubleOrStand?)
      ensures a == I.Surrender ==> canSurrender && SurrenderOrHit?
      ensures a == I.Split ==> Split? || (SplitOrHit? && canSplit)
      ensures Stand? || Hit? || Split? ==> a == (if Stand? then I.Stand else if Hit? then I.Hit else I.Split)
      ensures DoubleOrHit? || DoubleOrStand? ==> (a == I.Double <==> canDouble)
      ensures SurrenderOrHit? ==> (a == I.Surrender <==> canSurrender)
      ensures SplitOrHit? ==> (a == I.Split <==> canSplit)
      ensures a == I.Stand ==> Stand? || DoubleOrStand?
    {
      match this
      case Stand => I.Stand
      case Hit => I.Hit
      case Split => I.Split
      case DoubleOrHit => if canDouble then I.Double else I.Hit
      case DoubleOrStand => if canDouble then I.Double else I.Stand
      case SurrenderOrHit => if canSurrender then I.Surrender else I.Hit
      case SplitOrHit => if canSplit then I.Split else I.Hit
    }
  }

  /** `make_move_hard`: the table for hard totals 4 to 21; it never advises a split. */
  function MakeMoveHard(s: Settings, hand: LegacyPlayerHand, dealer: LegacyDealerHand): (r: Option<PreferredAction>)
    reads hand, dealer
    requires |dealer.cards| > 0
    ensures r.Some? <==> 4 <= hand.value.total <= 21
    ensures r.Some? ==> !r.value.Split? && !r.value.SplitOrHit?
    ensures r == Some(SurrenderOrHit) ==> 15 <= hand.value.total <= 16 && dealer.Showing() >= 9
  {
    var t, up := hand.value.total, dealer.Showing();
    if t == 9 && up == 2 && s.decks <= 2 then Some(DoubleOrHit)
    else if t == 9 && 3 <= up <= 6 then Some(DoubleOrHit)
    else if t == 10 && up <= 9 then Some(DoubleOrHit)
    else if t == 11 && up <= 10 then Some(DoubleOrHit)
    else if t == 11 && up == 11 && s.decks <= 2 then Some(DoubleOrHit)
    else if t == 12 && up <= 3 then Some(Hit)
    else if t == 15 && up == 10 && s.decks >= 8 then Some(SurrenderOrHit)
    else if t == 16 && up == 9 && s.decks >= 4 then Some(SurrenderOrHit)
    else if t == 16 && up >= 10 then Some(SurrenderOrHit)
    else if 4 <= t <= 11 then Some(Hit)
    else if 12 <= t <= 16 && up <= 6 then Some(Stand)
    else if 12 <= t <= 16 then Some(Hit)
    else if 17 <= t <= 21 then Some(Stand)
    else None
  }

  /** `make_move_soft`: the table for soft totals 13 to 21; it never splits or surrenders. */
  function MakeMoveSoft(hand: LegacyPlayerHand, dealer: LegacyDealerHand): (r: Option<PreferredAction>)
    reads hand, dealer
    requires |dealer.cards| > 0
    ensures r.Some? <==> 13 <= hand.value.total <= 21
    ensures r.Some? ==> !r.value.Split? && !r.value.SplitOrHit? && !r.value.SurrenderOrHit?
  {
    var t, up := hand.value.total, dealer.Showing();
    if 13 <= t <= 14 && 5 <= up <= 6 then Some(DoubleOrHit)
    else if 15 <= t <= 16 && 4 <= up <= 6 then Some(DoubleOrHit)
    else if t == 17 && 3 <= up <= 6 then Some(DoubleOrHit)
    else if t == 18 && 3 <= up <= 6 then Some(DoubleOrStand)
    else if t == 18 && (up == 2 || 7 <= up <= 8) then Some(Stand)
    else if 13 <= t <= 18 then Some(Hit)
    else if 19 <= t <= 21 then Some(Stand)
    else None
  }

  /**
   * `make_move_pair`, keyed on the worth of the paired card. Every worth and up card is
   * 2 to 11, so the table's panic arm is never reached: aces and 8s split, 10s stand, and
   * it never surrenders.
   */
  function MakeMovePair(hand: LegacyPlayerHand, dealer: LegacyDealerHand): (r: PreferredAction)
    reads hand, dealer
    requires |hand.cards| > 0 && |dealer.cards| > 0
    ensures hand.cards[0].rank == Ace ==> r == Split
    ensures Worth(hand.cards[0].rank) == 8 ==> r == Split
    ensures Worth(hand.cards[0].rank) == 10 ==> r == Stand
    ensures !r.SurrenderOrHit?
  {
    var k, up := Worth(hand.cards[0].rank), dealer.Showing();
    if 2 <= k <= 3 && up <= 3 then SplitOrHit
    else if 2 <= k <= 3 && up <= 7 then Split
    else if k == 4 && 5 <= up <= 6 then SplitOrHit
    else if k == 5 && up <= 9 then DoubleOrHit
    else if k == 6 && up == 2 then SplitOrHit
    else if k == 6 && up <= 6 then Split
    else if k == 7 && up <= 7 then Split
    else if k <= 7 then Hit
    else if (k == 9 && (up == 7 || up >= 10)) || k == 10 then Stand
    else Split
  }

  /** The core's table's action converted, where the older game has the same action. */
  function FromCore(p: BS.PreferredAction): (r: Option<PreferredAction>)
    ensures r.None? <==> p.SurrenderOrStand? || p.SurrenderOrSplit?
  {
    match p
    case Stand => Some(Stand)
    case Hit => Some(Hit)
    case Split => Some(Split)
    case DoubleOrHit => Some(DoubleOrHit)
    case DoubleOrStand => Some(DoubleOrStand)
    case SurrenderOrHit => Some(SurrenderOrHit)
    case SurrenderOrStand => None
    case SurrenderOrSplit => None
    case SplitIfDoubleAfterSplitAllowedElseHit => Some(SplitOrHit)
  }

  /**
   * The older pair table is the newer one, keyed on the paired card, except for 8s
   * against an ace that hits a soft 17, which the newer one would surrender.
   */
  lemma PairTableMatchesCore(s: Settings, hand: LegacyPlayerHand, dealer: LegacyDealerHand)
    requires hand.IsPair() && |dealer.cards| > 0
    ensures Worth(hand.cards[0].rank) == 8 && dealer.Showing() == 11 && s.soft17Hit ==>
              BS.MakeMoveSplittable(CoreHand(hand), CoreDealer(s, dealer)) == Some(BS.SurrenderOrSplit)
    ensures !(Worth(hand.cards[0].rank) == 8 && dealer.Showing() == 11 && s.soft17Hit) ==>
              FromCore(BS.MakeMoveSplittable(CoreHand(hand), CoreDealer(s, dealer)).value)
              == Some(MakeMovePair(hand, dealer))
  {
  }

  /**
   * `get_hand_action`: a pair uses the pair table, a soft hand the soft table, a hard
   * hand the hard table. A double needs the chips for it, two cards, and either an
   * unsplit hand or doubling after a split; a surrender needs late surrender; a
   * conditional split needs doubling after a split and the chips for it.
   */
  function GetHandAction(s: Settings, hand: LegacyPlayerHand, dealer: LegacyDealerHand, chips: nat): (r: Option<I.HandAction>)
    reads hand, dealer
    requires |dealer.cards| > 0
    ensures r == Some(I.Double) ==> chips >= hand.bet && |hand.cards| == 2 && (hand.splits == 0 || s.doubleAfterSplit)
    ensures r == Some(I.Surrender) ==> s.lateSurrender && !hand.IsPair() && !hand.value.soft
    ensures r == Some(I.Split) ==> hand.IsPair()
    ensures hand.IsPair() && hand.cards[0].rank == Ace ==> r == Some(I.Split)
  {
    var preferred :=
      if hand.IsPair() then Some(MakeMovePair(hand, dealer))
      else if hand.value.soft then MakeMoveSoft(hand, dealer)
      else MakeMoveHard(s, hand, dealer);
    var canDoubleChips := chips >= hand.bet;
    var twoCards := |hand.cards| == 2;
    var canDoubleAfterSplit := hand.splits == 0 || s.doubleAfterSplit;
    if preferred.None? then None
    else Some(preferred.value.Resolve(canDoubleChips && twoCards && canDoubleAfterSplit, s.lateSurrender,
                                      s.doubleAfterSplit && canDoubleChips))
  }

  /**
   * The older player always has an answer: a hand of two or more cards still in play
   * totals 4 or more, and a soft one that is not a pair of aces totals 13 or more, so no
   * table lookup reaches its panic.
   */
  lemma AdviceTotal(s: Settings, hand: LegacyPlayerHand, dealer: LegacyDealerHand, chips: nat)
    requires hand.Consistent() && |hand.cards| >= 2 && hand.value.total <= 21
    requires |dealer.cards| > 0
    ensures GetHandAction(s, hand, dealer, chips).Some?
  {
    ValueOfIsBestTotal(hand.cards);
    HardSumBounds(hand.cards);
    if hand.value.soft && hand.value.total == 12 {
      SoftTwelveIsAcePair(hand.cards);
    }
  }

  /**
   * Unlike the newer engine, which lets only a two-card hand surrender, the older player
   * surrenders a hard 16 against a 10 whenever late surrender is on, however many cards
   * the hand holds.
   */
  lemma SurrendersAfterHitting(s: Settings, hand: LegacyPlayerHand, dealer: LegacyDealerHand, chips: nat)
    requires s.lateSurrender && |hand.cards| == 3 && hand.value == Value(false, 16)
    requires |dealer.cards| > 0 && dealer.Showing() == 10
    ensures GetHandAction(s, hand, dealer, chips) == Some(I.Surrender)
  {
  }
}
