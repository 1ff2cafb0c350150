/**
 * Running statistics over the rounds a table has played.
 */
module Stats {
  import opened Hands

  /** One finished hand as the statistics see it: its status, its bet and what it paid. */
  datatype HandOutcome = HandOutcome(status: Status, bet: nat, winnings: nat)

  /** The largest machine word; the money totals stop there instead of overflowing. */
  const WordMax: nat := 0xFFFF_FFFF_FFFF_FFFF

  function Min(a: nat, b: nat): nat {
    if a <= b then a else b
  }

  /** `a.saturating_add(b)` on machine words. */
  function SaturatingAdd(a: nat, b: nat): (r: nat)
    requires a <= WordMax
    ensures r <= WordMax && a <= r <= a + b
    ensures r == a + b || r == WordMax
  {
    if a + b > WordMax then WordMax else a + b
  }

  /** Hands with the given status. */
  function CountStatus(hands: seq<HandOutcome>, s: Status): nat {
    if hands == [] then 0
    else CountStatus(hands[..|hands| - 1], s) + (if hands[|hands| - 1].status == s then 1 else 0)
  }

  /** Hands that paid more than their bet. */
  function CountWins(hands: seq<HandOutcome>): nat {
    if hands == [] then 0
    else CountWins(hands[..|hands| - 1]) + (if hands[|hands| - 1].winnings > hands[|hands| - 1].bet then 1 else 0)
  }

  /** Hands that paid back exactly their bet. */
  function CountPushes(hands: seq<HandOutcome>): nat {
    if hands == [] then 0
    else CountPushes(hands[..|hands| - 1]) + (if hands[|hands| - 1].winnings == hands[|hands| - 1].bet then 1 else 0)
  }

  /** Hands that paid less than their bet. */
  function CountLosses(hands: seq<HandOutcome>): nat {
    if hands == [] then 0
    else CountLosses(hands[..|hands| - 1]) + (if hands[|hands| - 1].winnings < hands[|hands| - 1].bet then 1 else 0)
  }

  function SumOutcomeBets(hands: seq<HandOutcome>): nat {
    if hands == [] then 0 else SumOutcomeBets(hands[..|hands| - 1]) + hands[|hands| - 1].bet
  }

  function SumOutcomeWinnings(hands: seq<HandOutcome>): nat {
    if hands == [] then 0 else SumOutcomeWinnings(hands[..|hands| - 1]) + hands[|hands| - 1].winnings
  }

  /** Every hand is exactly one of a win, a push or a loss. */
  lemma {:induction false} OutcomesPartition(hands: seq<HandOutcome>)
    ensures CountWins(hands) + CountPushes(hands) + CountLosses(hands) == |hands|
  {
    if hands != [] {
      OutcomesPartition(hands[..|hands| - 1]);
    }
  }

  /** At most every hand is a blackjack or a bust, and none is both. */
  lemma {:induction false} StatusCountsBounded(hands: seq<HandOutcome>)
    ensures CountStatus(hands, Blackjack) + CountStatus(hands, Bust) <= |hands|
  {
    if hands != [] {
      StatusCountsBounded(hands[..|hands| - 1]);
    }
  }

  /** Saturating one more amount onto a saturated sum is saturating the longer sum. */
  lemma SaturatingStep(a: nat, s: nat, x: nat)
    requires a <= WordMax
    ensures SaturatingAdd(Min(a + s, WordMax), x) == Min(a + s + x, WordMax)
  {
  }

  /** How every count and sum grows when a prefix of the hands takes one more hand. */
  lemma PrefixStep(hands: seq<HandOutcome>, i: nat)
    requires i < |hands|
    ensures var h, p, q := hands[i], hands[..i], hands[..i + 1];
      && CountWins(q) == CountWins(p) + (if h.winnings > h.bet then 1 else 0)
      && CountPushes(q) == CountPushes(p) + (if h.winnings == h.bet then 1 else 0)
      && CountLosses(q) == CountLosses(p) + (if h.winnings < h.bet then 1 else 0)
      && CountStatus(q, Blackjack) == CountStatus(p, Blackjack) + (if h.status == Blackjack then 1 else 0)
      && CountStatus(q, Bust) == CountStatus(p, Bust) + (if h.status == Bust then 1 else 0)
      && SumOutcomeBets(q) == SumOutcomeBets(p) + h.bet
      && SumOutcomeWinnings(q) == SumOutcomeWinnings(p) + h.winnings
  {
    assert hands[..i + 1][..i] == hands[..i];
  }

  /** The per-hand counters of the statistics, and the two money totals. */
  datatype Counts = Counts(wins: nat, pushes: nat, losses: nat, blackjacks: nat, busts: nat,
                           totalBet: nat, totalWon: nat)

  /** The counters after counting `hands` on top of `start`, the money totals stopping at the largest word. */
  function Tally(start: Counts, hands: seq<HandOutcome>): Counts {
    Counts(start.wins + CountWins(hands), start.pushes + CountPushes(hands), start.losses + CountLosses(hands),
           start.blackjacks + CountStatus(hands, Blackjack), start.busts + CountStatus(hands, Bust),
           Min(start.totalBet + SumOutcomeBets(hands), WordMax), Min(start.totalWon + SumOutcomeWinnings(hands), WordMax))
  }

  /**
   * The loop over a round's hands: each hand is counted as a win, push or loss by comparing
   * what it paid with its bet, blackjacks and busts are counted, and the money totals grow,
   * stopping at the largest word.
   */
  method CountHands(start: Counts, hands: seq<HandOutcome>) returns (c: Counts)
    requires start.totalBet <= WordMax && start.totalWon <= WordMax
    ensures c == Tally(start, hands)
    ensures c.totalBet <= WordMax && c.totalWon <= WordMax
  {
    c := start;
    var i := 0;
    while i < |hands|
      invariant 0 <= i <= |hands|
      invariant c == Tally(start, hands[..i])
    {
      var h := hands[i];
      PrefixStep(hands, i);
      match h.status {
        case Blackjack => c := c.(blackjacks := c.blackjacks + 1);
        case Bust => c := c.(busts := c.busts + 1);
        case _ =>
      }
      if h.winnings > h.bet {
        c := c.(wins := c.wins + 1);
      } else if h.winnings == h.bet {
        c := c.(pushes := c.pushes + 1);
      } else {
        c := c.(losses := c.losses + 1);
      }
      SaturatingStep(start.totalBet, SumOutcomeBets(hands[..i]), h.bet);
      SaturatingStep(start.totalWon, SumOutcomeWinnings(hands[..i]), h.winnings);
      c := c.(totalBet := SaturatingAdd(c.totalBet, h.bet), totalWon := SaturatingAdd(c.totalWon, h.winnings));
      i := i + 1;
    }
    assert hands[..i] == hands;
  }

  /**
   * How counting one round changes the statistics: one more turn, its hands tallied
   * (wins, pushes, losses, blackjacks, busts and the money totals), and the dealer's
   * blackjack or bust.
   */
  twostate predicate Recorded(s: Statistics, hands: seq<HandOutcome>, dealer: Status)
    reads s
  {
    && s.turnsPlayed == old(s.turnsPlayed) + 1 && s.handsPlayed == old(s.handsPlayed) + |hands|
    && Counts(s.wins, s.pushes, s.losses, s.blackjacks, s.busts, s.totalBet, s.totalWon)
       == Tally(Counts(old(s.wins), old(s.pushes), old(s.losses), old(s.blackjacks), old(s.busts), old(s.totalBet), old(s.totalWon)), hands)
    && s.dealerBlackjacks == old(s.dealerBlackjacks) + (if dealer == Blackjack then 1 else 0)
    && s.dealerBusts == old(s.dealerBusts) + (if dealer == Bust then 1 else 0)
  }

  class Statistics {
    var turnsPlayed: nat
    var handsPlayed: nat
    var totalBet: nat
    var totalWon: nat
    var wins: nat
    var pushes: nat
    var losses: nat
    var blackjacks: nat
    var busts: nat
    var dealerBlackjacks: nat
    var dealerBusts: nat

    /** The money totals are machine words. */
    ghost predicate Valid()
      reads this
    {
      totalBet <= WordMax && totalWon <= WordMax
    }

    /** Every counter starts at zero. */
    constructor ()
      ensures Valid()
      ensures turnsPlayed == 0 && handsPlayed == 0 && totalBet == 0 && totalWon == 0
      ensures wins == 0 && pushes == 0 && losses == 0 && blackjacks == 0 && busts == 0
      ensures dealerBlackjacks == 0 && dealerBusts == 0
    {
      turnsPlayed, handsPlayed, totalBet, totalWon := 0, 0, 0, 0;
      wins, pushes, losses, blackjacks, busts := 0, 0, 0, 0, 0;
      dealerBlackjacks, dealerBusts := 0, 0;
    }

    /**
     * Count one round: one more turn, its hands (see CountHands), and the dealer's
     * blackjack or bust.
     */
    method Update(hands: seq<HandOutcome>, dealer: Status)
      requires Valid()
      modifies this
      ensures Valid()
      ensures Recorded(this, hands, dealer)
    {
      var c := CountHands(Counts(wins, pushes, losses, blackjacks, busts, totalBet, totalWon), hands);
      var db := dealerBlackjacks + (if dealer == Blackjack then 1 else 0);
      var dx := dealerBusts + (if dealer == Bust then 1 else 0);
      turnsPlayed, handsPlayed, wins, pushes, losses, blackjacks, busts, totalBet, totalWon, dealerBlackjacks, dealerBusts :=
        turnsPlayed + 1, handsPlayed + |hands|, c.wins, c.pushes, c.losses, c.blackjacks, c.busts, c.totalBet, c.totalWon, db, dx;
    }
  }
}
