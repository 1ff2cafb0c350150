/**
 * The round engine: the table, its rule checks, and the transition taken from every
 * state of a round. Rejected input returns the unchanged state and a reason.
 */
module Game {
  import opened Common
  import opened Cards
  import opened TableRules
  import opened Hands
  import opened Turns
  import opened Shoes
  import opened Stats
  import opened State

  /** The player's options for playing a hand. */
  datatype HandAction = Stand | Hit | Double | Split | Surrender

  /** The input states may take: a bet, a yes/no choice, or an action on the current hand. */
  datatype Input = Bet(amount: nat) | Choice(yes: bool) | Action(action: HandAction)

  datatype BetError = TooLow | TooHigh
  datatype DoubleError = NotTwoCards | DoubleAfterSplitNotAllowed
  datatype SplitError = NotAPair | MaxSplitsReached | SplitAcesNotAllowed
  datatype SurrenderError = NotTwoCards | LateSurrenderNotAllowed

  datatype Error =
    | WrongInput
    | BetRejected(betError: BetError)
    | DoubleRejected(doubleError: DoubleError)
    | SplitRejected(splitError: SplitError)
    | SurrenderRejected(surrenderError: SurrenderError)

  /** The next state, or the unchanged state with the reason it could not progress. */
  type ProgressResult = Result<GameState, (GameState, Error)>

  // ---------------------------------------------------------------------------------
  // Rule checks

  /** Doubling needs a two-card hand, and a split turn needs double-after-split. */
  function CheckDoubleAllowed(rules: Rules, turn: ActiveTurn): (r: Result<(), DoubleError>)
    requires turn.Valid()
    ensures r.Ok? <==> turn.CurrentHand().Size() == 2 && (turn.HandCount() <= 1 || rules.doubleAfterSplit)
    ensures r == Err(DoubleError.NotTwoCards) <==> turn.CurrentHand().Size() != 2
  {
    if turn.CurrentHand().Size() != 2 then Err(DoubleError.NotTwoCards)
    else if turn.HandCount() > 1 && !rules.doubleAfterSplit then Err(DoubleAfterSplitNotAllowed)
    else Ok(())
  }

  /**
   * Splitting needs a pair; then a soft pair (aces) needs split-aces; then the turn
   * may hold at most max-splits hands before this split.
   */
  function CheckSplitAllowed(rules: Rules, turn: ActiveTurn): (r: Result<(), SplitError>)
    requires turn.Valid()
    ensures r == Err(NotAPair) <==> !turn.CurrentHand().IsPair()
    ensures r == Err(SplitAcesNotAllowed) <==>
              turn.CurrentHand().IsPair() && turn.CurrentHand().value.soft && !rules.splitAces
    ensures r.Ok? <==>
              && turn.CurrentHand().IsPair()
              && (turn.CurrentHand().value.soft ==> rules.splitAces)
              && (rules.maxSplits.Some? ==> turn.HandCount() <= rules.maxSplits.value)
  {
    if !turn.CurrentHand().IsPair() then Err(NotAPair)
    else if turn.CurrentHand().value.soft && !rules.splitAces then Err(SplitAcesNotAllowed)
    else if rules.maxSplits.Some? && turn.HandCount() > rules.maxSplits.value then Err(MaxSplitsReached)
    else Ok(())
  }

  /** Surrendering late needs a two-card hand and the late-surrender rule. */
  function CheckSurrenderAllowed(rules: Rules, hand: PlayerHand): (r: Result<(), SurrenderError>)
    ensures r.Ok? <==> hand.Size() == 2 && rules.offerLateSurrender
    ensures r == Err(SurrenderError.NotTwoCards) <==> hand.Size() != 2
  {
    if hand.Size() != 2 then Err(SurrenderError.NotTwoCards)
    else if !rules.offerLateSurrender then Err(LateSurrenderNotAllowed)
    else Ok(())
  }

  /**
   * The split-aces rule is about aces: a consistent pair is soft exactly when it is a
   * pair of aces.
   */
  lemma SoftPairIsAces(h: PlayerHand)
    requires h.IsPair() && h.value == ValueOf(h.cards)
    ensures h.value.soft <==> h.cards[0].rank == Ace
  {
    ValueOfIsBestTotal(h.cards);
    var first := h.cards[..1];
    assert first[..0] == [];
    assert HardSum(first) == HardWorth(h.cards[0]);
    assert h.cards[..|h.cards| - 1] == first;
    if HasAce(h.cards) {
      var i :| 0 <= i < 2 && h.cards[i].rank == Ace;
    }
  }

  /**
   * With a limit of m splits, a turn that has split k times (k + 1 hands) may split a
   * pair again exactly when k < m: a limit of 2 lets two splits through and refuses
   * the third.
   */
  lemma MaxSplitsCountsSplits(rules: Rules, turn: ActiveTurn)
    requires turn.Valid() && turn.CurrentHand().IsPair() && rules.splitAces
    requires rules.maxSplits.Some? && |turn.hands| < 256
    ensures CheckSplitAllowed(rules, turn).Ok? <==> |turn.hands| - 1 < rules.maxSplits.value
    ensures !CheckSplitAllowed(rules, turn).Ok? ==> CheckSplitAllowed(rules, turn) == Err(MaxSplitsReached)
  {
  }

  // ---------------------------------------------------------------------------------
  // Transitions that read only the rules

  /** `bet`: the bet must be at least the minimum, then at most the maximum. */
  function PlaceBet(rules: Rules, bet: nat): (r: ProgressResult)
    ensures r.Err? ==> r.error.0 == Betting
    ensures r == Err((Betting, BetRejected(TooLow))) <==> rules.minBet.Some? && bet < rules.minBet.value
    ensures r == Err((Betting, BetRejected(TooHigh))) <==>
              (rules.minBet.Some? ==> rules.minBet.value <= bet) && rules.maxBet.Some? && bet > rules.maxBet.value
    ensures r.Ok? <==>
              (rules.minBet.Some? ==> rules.minBet.value <= bet) && (rules.maxBet.Some? ==> bet <= rules.maxBet.value)
    ensures r.Ok? ==> r.value == DealFirstPlayerCards([bet], [])
  {
    if rules.minBet.Some? && bet < rules.minBet.value then Err((Betting, BetRejected(TooLow)))
    else if rules.maxBet.Some? && bet > rules.maxBet.value then Err((Betting, BetRejected(TooHigh)))
    else Ok(DealFirstPlayerCards([bet], []))
  }

  /**
   * At a table with the default rules any bet of 100 or more is taken and a smaller one
   * is too low, a two-card hand may always surrender late, and a pair of aces may be split.
   */
  lemma DefaultTable(bet: nat, turn: ActiveTurn)
    requires turn.Valid() && turn.CurrentHand().IsPair() && turn.HandCount() <= 5
    ensures PlaceBet(DefaultRules(), bet).Ok? <==> bet >= 100
    ensures PlaceBet(DefaultRules(), bet) == Err((Betting, BetRejected(TooLow))) <==> bet < 100
    ensures CheckSurrenderAllowed(DefaultRules(), turn.CurrentHand()).Ok? <==> turn.CurrentHand().Size() == 2
    ensures CheckSplitAllowed(DefaultRules(), turn).Ok?
  {
  }

  /** A turn whose player chose to surrender early, or left as it is. */
  function SurrenderIf(t: PendingTurn, yes: bool): (r: PendingTurn)
    requires yes ==> t.hand.Size() == 2
    ensures r.hand.bet == t.hand.bet && r.hand.cards == t.hand.cards && r.hand.value == t.hand.value
    ensures r.insuranceBet == t.insuranceBet
    ensures r.hand.status == (if yes then Surrendered else t.hand.status)
  {
    if yes then t.(hand := t.hand.Surrender()) else t
  }

  /** The loop of `choose_early_surrender`: the hands the players chose surrender, and the rest stay as they are. */
  method SurrenderChosen(turns: seq<PendingTurn>, choices: seq<bool>) returns (ts: seq<PendingTurn>)
    requires |turns| == |choices|
    requires forall i :: 0 <= i < |turns| && choices[i] ==> turns[i].hand.Size() == 2
    ensures |ts| == |turns|
    ensures forall j :: 0 <= j < |ts| ==> ts[j].hand.status == (if choices[j] then Surrendered else turns[j].hand.status)
    ensures ts == seq(|turns|, i requires 0 <= i < |turns| => SurrenderIf(turns[i], choices[i]))
  {
    ts := turns;
    var i := 0;
    while i < |ts|
      invariant 0 <= i <= |ts| == |turns|
      invariant forall j :: 0 <= j < i ==> ts[j] == SurrenderIf(turns[j], choices[j])
      invariant forall j :: i <= j < |ts| ==> ts[j] == turns[j]
    {
      if choices[i] {
        ts := ts[i := ts[i].(hand := ts[i].hand.Surrender())];
      }
      i := i + 1;
    }
  }

  /**
   * `choose_early_surrender`: each chosen hand surrenders. If every player surrendered
   * the round is over; otherwise insurance is offered on an ace up card when the rules
   * offer it, and the hole card is checked if not.
   */
  method ChooseEarlySurrender(rules: Rules, turns: seq<PendingTurn>, dealer: DealerHand, choices: seq<bool>)
    returns (r: GameState)
    requires |turns| == |choices| && |dealer.cards| > 0
    requires forall i :: 0 <= i < |turns| && choices[i] ==> turns[i].hand.Size() == 2
    ensures (forall i :: 0 <= i < |choices| ==> choices[i]) <==> r.RoundOver?
    ensures r.RoundOver? || r.OfferInsurance? || r.CheckDealerHoleCard?
    ensures r.dealerHand == dealer
    ensures r.RoundOver? ==> r.finishedTurns == FinishAll(seq(|turns|, i requires 0 <= i < |turns| => SurrenderIf(turns[i], choices[i])))
    ensures !r.RoundOver? ==> r.playerTurns == seq(|turns|, i requires 0 <= i < |turns| => SurrenderIf(turns[i], choices[i]))
    ensures r.OfferInsurance? <==> !r.RoundOver? && rules.offerInsurance && dealer.Showing() == 11
    ensures WellFormed(OfferEarlySurrender(turns, dealer)) ==> WellFormed(r)
    ensures Stake(r) == PendingStake(turns)
    ensures Follows(OfferEarlySurrender(turns, dealer), r)
  {
    var ts := SurrenderChosen(turns, choices);
    PendingStakeByInsurance(ts, turns);
    PendingStakeByInsurance(turns, ts);
    assert PendingStake(ts) == PendingStake(turns) by {
      SameInsurance(ts, turns);
    }
    if forall j :: 0 <= j < |choices| ==> choices[j] {
      FinishAllStake(ts);
      r := RoundOver(FinishAll(ts), dealer);
    } else if rules.offerInsurance && dealer.Showing() == 11 {
      r := OfferInsurance(ts, dealer);
    } else {
      r := CheckDealerHoleCard(ts, dealer);
    }
  }

  /** Turns with the same insurance bets have the same total insurance. */
  lemma {:induction false} SameInsurance(a: seq<PendingTurn>, b: seq<PendingTurn>)
    requires |a| == |b| && forall i :: 0 <= i < |a| ==> a[i].insuranceBet == b[i].insuranceBet
    ensures TotalInsurance(a) == TotalInsurance(b)
  {
    if a != [] {
      SameInsurance(a[..|a| - 1], b[..|b| - 1]);
    }
  }

  /**
   * `bet_insurance`: each turn's insurance bet is the one offered, capped at half the
   * hand's bet. Then the dealer checks the hole card.
   */
  method BetInsurance(turns: seq<PendingTurn>, dealer: DealerHand, bets: seq<nat>) returns (r: GameState)
    requires |turns| == |bets|
    ensures r.CheckDealerHoleCard? && r.dealerHand == dealer && |r.playerTurns| == |turns|
    ensures forall i :: 0 <= i < |turns| ==>
              r.playerTurns[i].hand == turns[i].hand && r.playerTurns[i].insuranceBet == Min(bets[i], turns[i].hand.bet / 2)
    ensures WellFormed(OfferInsurance(turns, dealer)) ==> WellFormed(r)
    ensures Stake(r) + TotalInsurance(turns) == PendingStake(turns) + TotalInsurance(r.playerTurns)
    ensures Follows(OfferInsurance(turns, dealer), r)
  {
    var ts := turns;
    var i := 0;
    while i < |ts|
      invariant 0 <= i <= |ts| == |turns|
      invariant forall j :: 0 <= j < |ts| ==> ts[j].hand == turns[j].hand
      invariant forall j :: 0 <= j < i ==> ts[j].insuranceBet == Min(bets[j], turns[j].hand.bet / 2)
      invariant forall j :: i <= j < |ts| ==> ts[j] == turns[j]
    {
      var capped := if bets[i] > ts[i].hand.bet / 2 then ts[i].hand.bet / 2 else bets[i];
      ts := ts[i := ts[i].(insuranceBet := capped)];
      i := i + 1;
    }
    PendingStakeByInsurance(ts, turns);
    r := CheckDealerHoleCard(ts, dealer);
  }

  /** The pending turns are never empty of money: insurance is never negative, and one player's stake grows by the capped amount. */
  lemma OnePlayerInsurance(before: PendingTurn, after: PendingTurn, bet: nat)
    requires before.insuranceBet == 0 && after.hand == before.hand && after.insuranceBet == Min(bet, before.hand.bet / 2)
    ensures PendingStake([after]) == PendingStake([before]) + Min(bet, before.hand.bet / 2)
  {
    assert [after][..0] == [] && [before][..0] == [];
  }

  // ---------------------------------------------------------------------------------
  // The player phase

  /**
   * The `pop_if` loop as a function: pending turns whose hand is no longer in play are
   * taken from the back and finished, until the last one is in play or none is left.
   */
  function SkipFinished(pending: seq<PendingTurn>, finished: seq<FinishedTurn>): (r: (seq<PendingTurn>, seq<FinishedTurn>))
    ensures |r.0| <= |pending| && r.0 == pending[..|r.0|]
    ensures r.0 != [] ==> r.0[|r.0| - 1].hand.status == InPlay
    ensures |r.0| + |r.1| == |pending| + |finished|
    ensures r.1[..|finished|] == finished
    ensures forall i :: |finished| <= i < |r.1| ==> r.1[i] == FinishedFrom(pending[|pending| - 1 - (i - |finished|)])
    ensures forall i :: |r.0| <= i < |pending| ==> pending[i].hand.status != InPlay
    decreases |pending|
  {
    if pending != [] && pending[|pending| - 1].hand.status != InPlay then
      SkipFinished(pending[..|pending| - 1], finished + [FinishedFrom(pending[|pending| - 1])])
    else
      (pending, finished)
  }

  /** Some finished hand stood. */
  predicate AnyStood(fs: seq<FinishedTurn>) {
    exists i, j :: 0 <= i < |fs| && 0 <= j < |fs[i].hands| && fs[i].hands[j].status == Stood
  }

  /**
   * Where the player phase goes once a turn is finished: the pending turns no longer
   * in play are finished from the back, and the next one in play starts; when none is
   * left the dealer plays, and stands at once if still in play and no player hand stood.
   */
  function NextTurnOrDealer(pending: seq<PendingTurn>, finished: seq<FinishedTurn>, dealer: DealerHand): (r: GameState)
    ensures r.PlayPlayerTurn? || r.RevealHoleCard?
    ensures r.PlayPlayerTurn? ==>
              && r.dealerHand == dealer && |r.pendingTurns| + |r.finishedTurns| == |pending| + |finished| - 1
              && r.currentTurn.Valid() && r.currentTurn.CurrentHand().status == InPlay && |r.currentTurn.hands| == 1
    ensures r.RevealHoleCard? ==> |r.finishedTurns| == |pending| + |finished|
    ensures r.RevealHoleCard? ==>
              r.dealerHand == if dealer.status == InPlay && !AnyStood(r.finishedTurns) then dealer.(status := Stood) else dealer
    // The last pending turn in play is played next, and the dealer only when no pending turn is in play.
    ensures r.PlayPlayerTurn? ==>
              && |r.pendingTurns| < |pending| && r.pendingTurns == pending[..|r.pendingTurns|]
              && r.currentTurn == ActiveFrom(pending[|r.pendingTurns|])
              && forall i :: |r.pendingTurns| < i < |pending| ==> pending[i].hand.status != InPlay
    ensures r.RevealHoleCard? <==> forall i :: 0 <= i < |pending| ==> pending[i].hand.status != InPlay
    ensures |finished| <= |r.finishedTurns| && r.finishedTurns[..|finished|] == finished
  {
    var (ps, fs) := SkipFinished(pending, finished);
    if ps != [] then PlayPlayerTurn(ps[..|ps| - 1], ActiveFrom(ps[|ps| - 1]), fs, dealer)
    else RevealHoleCard(fs, if dealer.status == InPlay && !AnyStood(fs) then dealer.(status := Stood) else dealer)
  }

  /**
   * Where the player phase goes next: on to the current turn's next hand in play, or,
   * once that turn is finished, to the next turn or the dealer.
   */
  function NextPlayerOrDealer(pending: seq<PendingTurn>, current: ActiveTurn, finished: seq<FinishedTurn>, dealer: DealerHand): (r: GameState)
    ensures r.PlayPlayerTurn? || r.RevealHoleCard?
    ensures r.PlayPlayerTurn? ==> r.dealerHand == dealer && r.currentTurn.Valid() && r.currentTurn.CurrentHand().status == InPlay
    ensures r.RevealHoleCard? ==> |r.finishedTurns| == |pending| + 1 + |finished|
    // The same turn goes on while one of its hands from the current one on is in play ...
    ensures (exists i :: current.currentHandIndex <= i < |current.hands| && current.hands[i].status == InPlay) ==>
              && r.PlayPlayerTurn? && r.currentTurn.hands == current.hands && r.currentTurn.insuranceBet == current.insuranceBet
              && current.currentHandIndex <= r.currentTurn.currentHandIndex
              && r.pendingTurns == pending && r.finishedTurns == finished
    // ... and otherwise it is finished, and play moves to a pending turn or the dealer.
    ensures (forall i :: current.currentHandIndex <= i < |current.hands| ==> current.hands[i].status != InPlay) ==>
              && |finished| < |r.finishedTurns| && r.finishedTurns[..|finished| + 1] == finished + [FinishedTurn(current.hands, current.insuranceBet)]
              && (r.PlayPlayerTurn? ==> |r.pendingTurns| < |pending|)
  {
    match ContinuePlaying(current)
    case Ok(c) => PlayPlayerTurn(pending, c, finished, dealer)
    case Err(ft) => NextTurnOrDealer(pending, finished + [ft], dealer)
  }

  /** Skipping finished pending turns keeps the waiting turns dealt and the finished turns out of play. */
  lemma {:induction false} SkipFinishedKeepsPhase(pending: seq<PendingTurn>, finished: seq<FinishedTurn>)
    requires AllDealtTwo(pending) && AllFinished(finished)
    ensures AllDealtTwo(SkipFinished(pending, finished).0) && AllFinished(SkipFinished(pending, finished).1)
    decreases |pending|
  {
    if pending != [] && pending[|pending| - 1].hand.status != InPlay {
      var last := pending[|pending| - 1];
      var init := pending[..|pending| - 1];
      var f' := finished + [FinishedFrom(last)];
      assert NoneInPlay(FinishedFrom(last).hands);
      assert AllFinished(f') by {
        forall i | 0 <= i < |f'| ensures NoneInPlay(f'[i].hands) {
          if i < |finished| { assert f'[i] == finished[i]; }
        }
      }
      assert AllDealtTwo(init) by {
        forall i | 0 <= i < |init| ensures DealtTwo(init[i]) {
          assert init[i] == pending[i];
        }
      }
      SkipFinishedKeepsPhase(init, f');
    }
  }

  /** Skipping finished pending turns moves their stake from the pending to the finished turns. */
  lemma {:induction false} SkipFinishedStake(pending: seq<PendingTurn>, finished: seq<FinishedTurn>)
    ensures PendingStake(SkipFinished(pending, finished).0) + FinishedStake(SkipFinished(pending, finished).1)
            == PendingStake(pending) + FinishedStake(finished)
    decreases |pending|
  {
    if pending != [] && pending[|pending| - 1].hand.status != InPlay {
      var last := pending[|pending| - 1];
      FinishedStakeAppend(finished, FinishedFrom(last));
      PendingTurnStake(last);
      SkipFinishedStake(pending[..|pending| - 1], finished + [FinishedFrom(last)]);
    }
  }

  /** Once a turn is finished, the next state is well formed: a new turn starts on a hand in play. */
  lemma NextTurnOrDealerWellFormed(p: seq<PendingTurn>, f: seq<FinishedTurn>, d: DealerHand)
    requires AllDealtTwo(p) && AllFinished(f) && |d.cards| >= 1
    ensures WellFormed(NextTurnOrDealer(p, f, d))
  {
    SkipFinishedKeepsPhase(p, f);
    var (ps, fs) := SkipFinished(p, f);
    if ps != [] {
      var t := ps[|ps| - 1];
      assert DealtTwo(t);
      var init := ps[..|ps| - 1];
      assert AllDealtTwo(init) by {
        forall i | 0 <= i < |init| ensures DealtTwo(init[i]) {
          assert init[i] == ps[i];
        }
      }
      assert PlayPhase(init, ActiveFrom(t), fs, d);
    }
  }

  /** Once a turn is finished, the next state has the money the waiting and finished turns had. */
  lemma NextTurnOrDealerStake(p: seq<PendingTurn>, f: seq<FinishedTurn>, d: DealerHand)
    ensures Stake(NextTurnOrDealer(p, f, d)) == PendingStake(p) + FinishedStake(f)
  {
    SkipFinishedStake(p, f);
    var r := SkipFinished(p, f);
    if r.0 != [] {
      NextTurnStake(r.0, r.1, d);
    }
  }

  /** Starting the last waiting turn keeps the money of the waiting and finished turns. */
  lemma NextTurnStake(ps: seq<PendingTurn>, fs: seq<FinishedTurn>, d: DealerHand)
    requires ps != []
    ensures Stake(PlayPlayerTurn(ps[..|ps| - 1], ActiveFrom(ps[|ps| - 1]), fs, d)) == PendingStake(ps) + FinishedStake(fs)
  {
    PendingTurnStake(ps[|ps| - 1]);
  }

  /**
   * Every state the player phase moves to is well formed: in particular a turn left to
   * play always has its current hand in play.
   */
  lemma NextPlayerOrDealerWellFormed(p: seq<PendingTurn>, c: ActiveTurn, f: seq<FinishedTurn>, d: DealerHand)
    requires PlayPhase(p, c, f, d) && AllDealt(c)
    ensures WellFormed(NextPlayerOrDealer(p, c, f, d))
  {
    match ContinuePlaying(c)
    case Ok(c') =>
    case Err(ft) =>
      var f' := f + [ft];
      assert AllFinished(f') by {
        forall i | 0 <= i < |f'| ensures NoneInPlay(f'[i].hands) {
          if i < |f| { assert f'[i] == f[i]; }
        }
      }
      NextTurnOrDealerWellFormed(p, f', d);
  }

  /** The player phase never moves money: the stake of the state it moves to is the stake it had. */
  lemma NextPlayerOrDealerStake(p: seq<PendingTurn>, c: ActiveTurn, f: seq<FinishedTurn>, d: DealerHand)
    ensures Stake(NextPlayerOrDealer(p, c, f, d)) == PendingStake(p) + ActiveStake(c) + FinishedStake(f)
  {
    match ContinuePlaying(c)
    case Ok(c') =>
      assert ActiveStake(c') == ActiveStake(c);
    case Err(ft) =>
      FinishedStakeAppend(f, ft);
      NextTurnOrDealerStake(p, f + [ft], d);
  }

  /**
   * Replacing the current hand with a played one and moving on: the money changes by
   * the difference of the two bets, and a consistent hand of two or more cards keeps
   * the phase well formed.
   */
  lemma ReplaceCurrentStep(p: seq<PendingTurn>, c: ActiveTurn, f: seq<FinishedTurn>, d: DealerHand, h: PlayerHand)
    requires c.Valid()
    ensures Stake(NextPlayerOrDealer(p, c.WithCurrentHand(h), f, d)) + c.CurrentHand().bet
            == PendingStake(p) + ActiveStake(c) + FinishedStake(f) + h.bet
    ensures PlayPhase(p, c, f, d) && AllDealt(c) && Consistent(h) && |h.cards| >= 2 ==>
              WellFormed(NextPlayerOrDealer(p, c.WithCurrentHand(h), f, d))
  {
    ReplaceCurrentStake(c, h);
    NextPlayerOrDealerStake(p, c.WithCurrentHand(h), f, d);
    if PlayPhase(p, c, f, d) && AllDealt(c) && Consistent(h) && |h.cards| >= 2 {
      ReplaceCurrentKeepsPhase(p, c, f, d, h);
      NextPlayerOrDealerWellFormed(p, c.WithCurrentHand(h), f, d);
    }
  }

  /** Standing keeps the phase well formed and moves no money. */
  lemma StandStep(p: seq<PendingTurn>, c: ActiveTurn, f: seq<FinishedTurn>, d: DealerHand)
    requires c.Valid() && c.CurrentHand().status == InPlay
    ensures WellFormed(PlayerStand(p, c, f, d)) ==> WellFormed(NextPlayerOrDealer(p, c.WithCurrentHand(c.CurrentHand().Stand()), f, d))
    ensures Stake(NextPlayerOrDealer(p, c.WithCurrentHand(c.CurrentHand().Stand()), f, d)) == Stake(PlayerStand(p, c, f, d))
  {
    ReplaceCurrentStep(p, c, f, d, c.CurrentHand().Stand());
    if WellFormed(PlayerStand(p, c, f, d)) {
      CurrentConsistent(p, c, f, d);
    }
  }

  /** Surrendering keeps the phase well formed and moves no money: the half returned is settled at the payout. */
  lemma SurrenderStep(p: seq<PendingTurn>, c: ActiveTurn, f: seq<FinishedTurn>, d: DealerHand)
    requires c.Valid() && c.CurrentHand().Size() == 2
    ensures WellFormed(PlayerSurrender(p, c, f, d)) ==>
              WellFormed(NextPlayerOrDealer(p, c.WithCurrentHand(c.CurrentHand().Surrender()), f, d))
    ensures Stake(NextPlayerOrDealer(p, c.WithCurrentHand(c.CurrentHand().Surrender()), f, d)) == Stake(PlayerSurrender(p, c, f, d))
  {
    var h := c.CurrentHand().Surrender();
    ReplaceCurrentStep(p, c, f, d, h);
    if WellFormed(PlayerSurrender(p, c, f, d)) {
      assert PlayPhase(p, c, f, d) && AllDealt(c);
      CurrentConsistent(p, c, f, d);
      assert Consistent(h);
    }
  }

  /** Hitting keeps the phase well formed and moves no money. */
  lemma HitStep(p: seq<PendingTurn>, c: ActiveTurn, f: seq<FinishedTurn>, d: DealerHand, card: Card)
    requires c.Valid() && c.CurrentHand().status == InPlay
    ensures WellFormed(PlayerHit(p, c, f, d)) ==> WellFormed(NextPlayerOrDealer(p, c.WithCurrentHand(c.CurrentHand().Add(card)), f, d))
    ensures Stake(NextPlayerOrDealer(p, c.WithCurrentHand(c.CurrentHand().Add(card)), f, d)) == Stake(PlayerHit(p, c, f, d))
  {
    var h := c.CurrentHand().Add(card);
    ReplaceCurrentStep(p, c, f, d, h);
    if WellFormed(PlayerHit(p, c, f, d)) {
      assert PlayPhase(p, c, f, d) && AllDealt(c);
      CurrentConsistent(p, c, f, d);
      AddKeepsConsistent(c.CurrentHand(), card);
      assert Consistent(h) && |h.cards| >= 2;
    }
  }

  /** The first card on a split hand keeps the phase well formed and moves no money. */
  lemma FirstSplitCardStep(p: seq<PendingTurn>, c: ActiveTurn, newHand: PlayerHand, f: seq<FinishedTurn>, d: DealerHand, card: Card)
    requires c.Valid() && c.CurrentHand().status == InPlay
    ensures WellFormed(DealFirstSplitCard(p, c, newHand, f, d)) ==>
              WellFormed(DealSecondSplitCard(p, c.WithCurrentHand(c.CurrentHand().Add(card)), newHand, f, d))
    ensures Stake(DealSecondSplitCard(p, c.WithCurrentHand(c.CurrentHand().Add(card)), newHand, f, d))
            == Stake(DealFirstSplitCard(p, c, newHand, f, d))
  {
    var h := c.CurrentHand().Add(card);
    ReplaceCurrentStake(c, h);
    if WellFormed(DealFirstSplitCard(p, c, newHand, f, d)) {
      AddKeepsConsistent(c.CurrentHand(), card);
      ReplaceCurrentKeepsPhase(p, c, f, d, h);
    }
  }

  /** The second card on the split-off hand, put at the end of the turn, keeps the phase well formed and moves no money. */
  lemma SecondSplitCardStep(p: seq<PendingTurn>, c: ActiveTurn, newHand: PlayerHand, f: seq<FinishedTurn>, d: DealerHand, card: Card)
    requires newHand.status == InPlay
    ensures WellFormed(DealSecondSplitCard(p, c, newHand, f, d)) ==> WellFormed(NextPlayerOrDealer(p, c.Defer(newHand.Add(card)), f, d))
    ensures Stake(NextPlayerOrDealer(p, c.Defer(newHand.Add(card)), f, d)) == Stake(DealSecondSplitCard(p, c, newHand, f, d))
  {
    var h := newHand.Add(card);
    DeferStake(c, h);
    NextPlayerOrDealerStake(p, c.Defer(h), f, d);
    if WellFormed(DealSecondSplitCard(p, c, newHand, f, d)) {
      AddKeepsConsistent(newHand, card);
      DeferKeepsPhase(p, c, f, d, h);
      NextPlayerOrDealerWellFormed(p, c.Defer(h), f, d);
    }
  }

  /** Dealing a first card on the last undealt bet keeps the deal well formed and moves the bet onto the new turn. */
  lemma FirstPlayerCardStep(bets: seq<nat>, turns: seq<PendingTurn>, card: Card)
    requires bets != []
    ensures var turns' := turns + [PendingFrom(NewPlayerHand(card, bets[|bets| - 1]))];
            var r := if |bets| == 1 then DealFirstDealerCard(turns') else DealFirstPlayerCards(bets[..|bets| - 1], turns');
            && (WellFormed(DealFirstPlayerCards(bets, turns)) ==> WellFormed(r))
            && Stake(r) == Stake(DealFirstPlayerCards(bets, turns))
  {
    var bet := bets[|bets| - 1];
    var turns' := turns + [PendingFrom(NewPlayerHand(card, bet))];
    NewHandDealt(card, bet);
    assert turns'[..|turns'| - 1] == turns;
    if |bets| == 1 {
      assert bets[..0] == [];
      assert SumLast(bets) == bet;
      assert Stake(DealFirstDealerCard(turns')) == PendingStake(turns) + bet;
      if WellFormed(DealFirstPlayerCards(bets, turns)) {
        assert turns' == [PendingFrom(NewPlayerHand(card, bet))];
      }
    }
  }

  /** The second card on a player hand keeps the deal well formed and moves no money. */
  lemma SecondPlayerCardStep(turns: seq<PendingTurn>, dealer: DealerHand, k: nat, card: Card)
    requires k < |turns| && turns[k].hand.status == InPlay && |turns[k].hand.cards| == 1
    ensures var r := DealSecondPlayerCards(turns[k := turns[k].(hand := turns[k].hand.Add(card))], dealer);
            && (WellFormed(DealSecondPlayerCards(turns, dealer)) ==> WellFormed(r))
            && Stake(r) == Stake(DealSecondPlayerCards(turns, dealer))
  {
    var ts := turns[k := turns[k].(hand := turns[k].hand.Add(card))];
    PendingStakeByInsurance(ts, turns);
    SameInsurance(ts, turns);
    if WellFormed(DealSecondPlayerCards(turns, dealer)) {
      AddKeepsConsistent(turns[k].hand, card);
    }
  }

  /** The hole card keeps the round well formed and moves no money, wherever the round goes next. */
  lemma HoleCardStep(rules: Rules, turns: seq<PendingTurn>, dealer: DealerHand, card: Card)
    requires dealer.status == InPlay
    ensures WellFormed(DealHoleCard(turns, dealer)) ==> WellFormed(HoleCardDealt(rules, turns, dealer.Add(card)))
    ensures Stake(HoleCardDealt(rules, turns, dealer.Add(card))) == Stake(DealHoleCard(turns, dealer))
  {
  }

  /** Doubling the current hand keeps the phase well formed and adds the hand's bet to the table. */
  lemma DoubleStep(p: seq<PendingTurn>, c: ActiveTurn, f: seq<FinishedTurn>, d: DealerHand, card: Card)
    requires c.Valid() && c.CurrentHand().status == InPlay && c.CurrentHand().Size() == 2
    ensures WellFormed(PlayerDouble(p, c, f, d)) ==> WellFormed(NextPlayerOrDealer(p, c.WithCurrentHand(c.CurrentHand().Double(card)), f, d))
    ensures Stake(NextPlayerOrDealer(p, c.WithCurrentHand(c.CurrentHand().Double(card)), f, d)) == Stake(PlayerDouble(p, c, f, d)) + c.CurrentHand().bet
  {
    var h := c.CurrentHand().Double(card);
    ReplaceCurrentStep(p, c, f, d, h);
    if WellFormed(PlayerDouble(p, c, f, d)) {
      CurrentConsistent(p, c, f, d);
      DoubleKeepsConsistent(c.CurrentHand(), card);
    }
  }

  /** The hand being played is consistent, holding its cards' value. */
  lemma CurrentConsistent(p: seq<PendingTurn>, c: ActiveTurn, f: seq<FinishedTurn>, d: DealerHand)
    requires PlayPhase(p, c, f, d)
    ensures Consistent(c.CurrentHand())
  {
  }

  /**
   * `continue_player_phase_or_go_to_dealer`: resume the current turn, or finish it,
   * finish the pending turns no longer in play one by one, and start the next turn or
   * hand over to the dealer.
   */
  method ContinuePlayerPhaseOrGoToDealer(pending: seq<PendingTurn>, current: ActiveTurn, finished: seq<FinishedTurn>, dealer: DealerHand)
    returns (r: GameState)
    ensures r == NextPlayerOrDealer(pending, current, finished, dealer)
  {
    match ContinuePlaying(current) {
      case Ok(c) =>
        r := PlayPlayerTurn(pending, c, finished, dealer);
      case Err(ft) =>
        var ps, fs := pending, finished + [ft];
        while ps != [] && ps[|ps| - 1].hand.status != InPlay
          invariant SkipFinished(ps, fs) == SkipFinished(pending, finished + [ft])
          decreases |ps|
        {
          fs := fs + [FinishedFrom(ps[|ps| - 1])];
          ps := ps[..|ps| - 1];
        }
        if ps != [] {
          r := PlayPlayerTurn(ps[..|ps| - 1], ActiveFrom(ps[|ps| - 1]), fs, dealer);
        } else {
          var d := dealer;
          if d.status == InPlay && !AnyStood(fs) {
            d := d.(status := Stood);
          }
          r := RevealHoleCard(fs, d);
        }
    }
  }

  /**
   * How the player phase starts: the last pending turn enters play, or, with no player
   * at all, the dealer stands and the round is over.
   */
  function StartPlayerPhase(turns: seq<PendingTurn>, dealer: DealerHand): (r: GameState)
    ensures turns == [] <==> r.RoundOver?
    ensures r.PlayPlayerTurn? || r.RevealHoleCard? || r.RoundOver?
  {
    if turns == [] then RoundOver([], dealer.(status := Stood))
    else NextPlayerOrDealer(turns[..|turns| - 1], ActiveFrom(turns[|turns| - 1]), [], dealer)
  }

  /** Starting the player phase from dealt turns lands on a well-formed state. */
  lemma StartPlayerPhaseWellFormed(turns: seq<PendingTurn>, dealer: DealerHand)
    requires AllDealtTwo(turns) && |dealer.cards| >= 1
    ensures WellFormed(StartPlayerPhase(turns, dealer))
  {
    if turns != [] {
      var rest, first := turns[..|turns| - 1], turns[|turns| - 1];
      assert DealtTwo(first);
      assert AllDealtTwo(rest) by {
        forall i | 0 <= i < |rest| ensures DealtTwo(rest[i]) {
          assert rest[i] == turns[i];
        }
      }
      NextPlayerOrDealerWellFormed(rest, ActiveFrom(first), [], dealer);
    }
  }

  /** Starting the player phase moves no money. */
  lemma StartPlayerPhaseStake(turns: seq<PendingTurn>, dealer: DealerHand)
    ensures Stake(StartPlayerPhase(turns, dealer)) == PendingStake(turns)
  {
    if turns != [] {
      var rest, first := turns[..|turns| - 1], turns[|turns| - 1];
      NextPlayerOrDealerStake(rest, ActiveFrom(first), [], dealer);
      PendingTurnStake(first);
    }
  }

  /** `start_player_phase_or_end_round`. */
  method StartPlayerPhaseOrEndRound(turns: seq<PendingTurn>, dealer: DealerHand) returns (r: GameState)
    ensures r == StartPlayerPhase(turns, dealer)
    ensures AllDealtTwo(turns) && |dealer.cards| >= 1 ==> WellFormed(r)
    ensures Stake(r) == PendingStake(turns)
  {
    StartPlayerPhaseStake(turns, dealer);
    if AllDealtTwo(turns) && |dealer.cards| >= 1 {
      StartPlayerPhaseWellFormed(turns, dealer);
    }
    if turns == [] {
      r := RoundOver([], dealer.(status := Stood));
    } else {
      r := ContinuePlayerPhaseOrGoToDealer(turns[..|turns| - 1], ActiveFrom(turns[|turns| - 1]), [], dealer);
    }
  }

  /**
   * Where the round goes once the dealer holds two cards. With an up card under 10, or
   * when every player has blackjack, the player phase starts at once. Otherwise early
   * surrender is offered if the rules offer it, then insurance on an ace, and failing
   * both the dealer checks the hole card.
   */
  function HoleCardDealt(rules: Rules, turns: seq<PendingTurn>, d: DealerHand): (r: GameState)
    requires |d.cards| > 0
    ensures d.Showing() < 10 || AllBlackjack(turns) ==> r == StartPlayerPhase(turns, d)
    ensures r.OfferEarlySurrender? <==> d.Showing() >= 10 && !AllBlackjack(turns) && rules.offerEarlySurrender
    ensures r.OfferInsurance? <==>
              d.Showing() >= 10 && !AllBlackjack(turns) && !rules.offerEarlySurrender && rules.offerInsurance && d.Showing() == 11
    ensures r.OfferEarlySurrender? || r.OfferInsurance? || r.CheckDealerHoleCard? ==> r.playerTurns == turns && r.dealerHand == d
    ensures |turns| == 1 && DealtTwo(turns[0]) && turns[0].insuranceBet == 0 && |d.cards| == 2 ==> WellFormed(r)
    ensures Stake(r) == PendingStake(turns)
  {
    StartPlayerPhaseStake(turns, d);
    assert |turns| == 1 && DealtTwo(turns[0]) && |d.cards| == 2 ==> WellFormed(StartPlayerPhase(turns, d)) by {
      if |turns| == 1 && DealtTwo(turns[0]) && |d.cards| == 2 {
        assert AllDealtTwo(turns);
        StartPlayerPhaseWellFormed(turns, d);
      }
    }
    if d.Showing() < 10 || AllBlackjack(turns) then StartPlayerPhase(turns, d)
    else if rules.offerEarlySurrender then OfferEarlySurrender(turns, d)
    else if rules.offerInsurance && d.Showing() == 11 then OfferInsurance(turns, d)
    else CheckDealerHoleCard(turns, d)
  }

  /**
   * `check_dealer_hole_card`: a dealer blackjack ends the round at once, every pending
   * turn finishing as it is; otherwise the player phase starts.
   */
  method CheckHoleCard(turns: seq<PendingTurn>, dealer: DealerHand) returns (r: GameState)
    ensures dealer.status == Blackjack ==> r == RoundOver(FinishAll(turns), dealer)
    ensures dealer.status != Blackjack ==> r == StartPlayerPhase(turns, dealer)
    ensures WellFormed(CheckDealerHoleCard(turns, dealer)) ==> WellFormed(r)
    ensures Stake(r) == PendingStake(turns)
    ensures Follows(CheckDealerHoleCard(turns, dealer), r)
  {
    if dealer.status == Blackjack {
      FinishAllStake(turns);
      r := RoundOver(FinishAll(turns), dealer);
    } else {
      if WellFormed(CheckDealerHoleCard(turns, dealer)) {
        assert AllDealtTwo(turns);
      }
      r := StartPlayerPhaseOrEndRound(turns, dealer);
    }
  }

  /**
   * Finished turns are meant to hold no hand in play, and every turn the player phase
   * finishes keeps to that (see AllFinished). A dealer blackjack at the hole-card check
   * finishes the pending turns as they are, though: a hard 16 still in play against an
   * ace and a king ends the round in play.
   */
  lemma DealerBlackjackFinishesHandInPlay()
    ensures var hand := NewPlayerHand(Card(Ten, Spades), 100).Add(Card(Six, Hearts));
            var dealer := NewDealerHand(Card(Ace, Clubs), StandOnSoft17).Add(Card(King, Diamonds));
            var turns := [PendingFrom(hand)];
            && WellFormed(CheckDealerHoleCard(turns, dealer))
            && dealer.status == Blackjack
            && hand.status == InPlay
            && !AllFinished(FinishAll(turns))
  {
    var hand := NewPlayerHand(Card(Ten, Spades), 100).Add(Card(Six, Hearts));
    var dealer := NewDealerHand(Card(Ace, Clubs), StandOnSoft17).Add(Card(King, Diamonds));
    var turns := [PendingFrom(hand)];
    HardSixteen();
    AceKing();
    assert DealtTwo(turns[0]);
    assert FinishAll(turns)[0].hands[0] == hand;
    assert !NoneInPlay(FinishAll(turns)[0].hands);
  }

  /** The player's ten and six: a consistent hard 16, still in play. */
  lemma HardSixteen()
    ensures var hand := NewPlayerHand(Card(Ten, Spades), 100).Add(Card(Six, Hearts));
            && |hand.cards| == 2 && hand.value == Value(false, 16) && hand.status == InPlay && Consistent(hand)
  {
    var hand := NewPlayerHand(Card(Ten, Spades), 100).Add(Card(Six, Hearts));
    assert hand.cards == [Card(Ten, Spades), Card(Six, Hearts)];
    assert hand.cards[..1] == [Card(Ten, Spades)];
    assert [Card(Ten, Spades)][..0] == [];
    assert hand.value == ValueOf(hand.cards);
  }

  /** The dealer's ace and king: two cards and a blackjack. */
  lemma AceKing()
    ensures var dealer := NewDealerHand(Card(Ace, Clubs), StandOnSoft17).Add(Card(King, Diamonds));
            |dealer.cards| == 2 && dealer.value == Value(true, 21) && dealer.status == Blackjack
  {
  }

  /** From a well-formed player turn, standing or hitting leads to a well-formed state. */
  lemma StandOrHitKeepsPhase(p: seq<PendingTurn>, c: ActiveTurn, f: seq<FinishedTurn>, d: DealerHand)
    requires c.Valid()
    ensures WellFormed(PlayPlayerTurn(p, c, f, d)) ==>
              WellFormed(PlayerHit(p, c, f, d)) && WellFormed(PlayerStand(p, c, f, d))
  {
  }

  /** From a well-formed player turn on two cards, doubling or surrendering leads to a well-formed state. */
  lemma TwoCardChoiceKeepsPhase(p: seq<PendingTurn>, c: ActiveTurn, f: seq<FinishedTurn>, d: DealerHand)
    requires c.Valid()
    ensures WellFormed(PlayPlayerTurn(p, c, f, d)) && c.CurrentHand().Size() == 2 ==>
              WellFormed(PlayerDouble(p, c, f, d)) && WellFormed(PlayerSurrender(p, c, f, d))
  {
  }

  /** From a well-formed player turn on a pair, splitting leads to a well-formed state. */
  lemma SplitChoiceKeepsPhase(p: seq<PendingTurn>, c: ActiveTurn, f: seq<FinishedTurn>, d: DealerHand)
    requires c.Valid()
    ensures WellFormed(PlayPlayerTurn(p, c, f, d)) && c.CurrentHand().IsPair() ==> WellFormed(PlayerSplit(p, c, f, d))
  {
  }

  /**
   * `play_player_turn`: stand and hit are always taken; double, split and surrender
   * only when their rule check passes, and otherwise the state comes back unchanged.
   */
  function ChooseAction(rules: Rules, p: seq<PendingTurn>, c: ActiveTurn, f: seq<FinishedTurn>, d: DealerHand, action: HandAction)
    : (r: ProgressResult)
    requires c.Valid()
    ensures r.Err? ==> r.error.0 == PlayPlayerTurn(p, c, f, d)
    ensures action == Stand || action == Hit ==> r.Ok?
    ensures action == Double ==> (r.Ok? <==> CheckDoubleAllowed(rules, c).Ok?)
    ensures action == Split ==> (r.Ok? <==> CheckSplitAllowed(rules, c).Ok?)
    ensures action == Surrender ==> (r.Ok? <==> CheckSurrenderAllowed(rules, c.CurrentHand()).Ok?)
    ensures WellFormed(PlayPlayerTurn(p, c, f, d)) && r.Ok? ==> WellFormed(r.value)
    ensures r.Ok? ==> Stake(r.value) == Stake(PlayPlayerTurn(p, c, f, d))
  {
    match action
    case Hit => StandOrHitKeepsPhase(p, c, f, d); Ok(PlayerHit(p, c, f, d))
    case Stand => StandOrHitKeepsPhase(p, c, f, d); Ok(PlayerStand(p, c, f, d))
    case Double =>
      var check := CheckDoubleAllowed(rules, c);
      if check.Err? then Err((PlayPlayerTurn(p, c, f, d), DoubleRejected(check.error)))
      else TwoCardChoiceKeepsPhase(p, c, f, d); Ok(PlayerDouble(p, c, f, d))
    case Split =>
      var check := CheckSplitAllowed(rules, c);
      if check.Err? then Err((PlayPlayerTurn(p, c, f, d), SplitRejected(check.error)))
      else SplitChoiceKeepsPhase(p, c, f, d); Ok(PlayerSplit(p, c, f, d))
    case Surrender =>
      var check := CheckSurrenderAllowed(rules, c.CurrentHand());
      if check.Err? then Err((PlayPlayerTurn(p, c, f, d), SurrenderRejected(check.error)))
      else TwoCardChoiceKeepsPhase(p, c, f, d); Ok(PlayerSurrender(p, c, f, d))
  }

  /** `stand`: the current hand stands and play moves on. */
  method StandHand(p: seq<PendingTurn>, c: ActiveTurn, f: seq<FinishedTurn>, d: DealerHand) returns (r: GameState)
    requires c.Valid() && c.CurrentHand().status == InPlay
    ensures r == NextPlayerOrDealer(p, c.WithCurrentHand(c.CurrentHand().Stand()), f, d)
    ensures WellFormed(PlayerStand(p, c, f, d)) ==> WellFormed(r)
    ensures Stake(r) == Stake(PlayerStand(p, c, f, d))
    ensures Follows(PlayerStand(p, c, f, d), r)
  {
    r := ContinuePlayerPhaseOrGoToDealer(p, c.WithCurrentHand(c.CurrentHand().Stand()), f, d);
    StandStep(p, c, f, d);
  }

  /** `surrender`: the current two-card hand surrenders and play moves on. */
  method SurrenderHand(p: seq<PendingTurn>, c: ActiveTurn, f: seq<FinishedTurn>, d: DealerHand) returns (r: GameState)
    requires c.Valid() && c.CurrentHand().Size() == 2
    ensures r == NextPlayerOrDealer(p, c.WithCurrentHand(c.CurrentHand().Surrender()), f, d)
    ensures WellFormed(PlayerSurrender(p, c, f, d)) ==> WellFormed(r)
    ensures Stake(r) == Stake(PlayerSurrender(p, c, f, d))
    ensures Follows(PlayerSurrender(p, c, f, d), r)
  {
    r := ContinuePlayerPhaseOrGoToDealer(p, c.WithCurrentHand(c.CurrentHand().Surrender()), f, d);
    SurrenderStep(p, c, f, d);
  }

  /**
   * `split`: the current pair is split; the current hand keeps the first card and a
   * new hand with the same bet holds the second, waiting for its card.
   */
  function SplitHand(p: seq<PendingTurn>, c: ActiveTurn, f: seq<FinishedTurn>, d: DealerHand): (r: GameState)
    requires c.Valid() && c.CurrentHand().IsPair()
    ensures r.DealFirstSplitCard? && r.currentTurn.Valid() && r.currentTurn.currentHandIndex == c.currentHandIndex
    ensures r.currentTurn.CurrentHand().cards + r.newHand.cards == c.CurrentHand().cards
    ensures r.newHand.bet == c.CurrentHand().bet
    ensures WellFormed(PlayerSplit(p, c, f, d)) ==> WellFormed(r)
    ensures Stake(r) == Stake(PlayerSplit(p, c, f, d)) + c.CurrentHand().bet
  {
    var (kept, newHand) := c.CurrentHand().Split();
    ReplaceCurrentStake(c, kept);
    ValueOfSingle(c.CurrentHand().cards[0]);
    NewHandDealt(c.CurrentHand().cards[1], c.CurrentHand().bet);
    DealFirstSplitCard(p, c.WithCurrentHand(kept), newHand, f, d)
  }

  /** `play_dealer_turn_or_end_round`: the dealer plays on while in play; then the round is over. */
  function PlayDealerTurnOrEndRound(f: seq<FinishedTurn>, d: DealerHand): (r: GameState)
    ensures r.PlayDealerTurn? <==> d.status == InPlay
    ensures r.RoundOver? <==> d.status != InPlay
    ensures r.finishedTurns == f && r.dealerHand == d
  {
    if d.status == InPlay then PlayDealerTurn(f, d) else RoundOver(f, d)
  }

  /** The total bet of each finished turn. */
  function TotalBets(f: seq<FinishedTurn>): (r: seq<nat>)
    ensures |r| == |f| && forall i :: 0 <= i < |f| ==> r[i] == f[i].TotalBet()
  {
    seq(|f|, i requires 0 <= i < |f| => f[i].TotalBet())
  }

  /** What each finished turn pays. */
  function TurnWinnings(f: seq<FinishedTurn>, d: DealerHand, payout: BlackjackPayout): (r: seq<nat>)
    ensures |r| == |f| && forall i :: 0 <= i < |f| ==> r[i] == f[i].CalculateWinnings(d, payout)
  {
    seq(|f|, i requires 0 <= i < |f| => f[i].CalculateWinnings(d, payout))
  }

  /** The round's total bets add up to the money that was on the table. */
  lemma {:induction false} TotalBetsStake(f: seq<FinishedTurn>)
    ensures SumLast(TotalBets(f)) == FinishedStake(f)
  {
    if f != [] {
      TotalBetsStake(f[..|f| - 1]);
      assert TotalBets(f)[..|f| - 1] == TotalBets(f[..|f| - 1]);
    }
  }

  /** Every hand of the finished turns, in order and each once, as the statistics record it. */
  function Outcomes(f: seq<FinishedTurn>, d: DealerHand, payout: BlackjackPayout): (r: seq<HandOutcome>)
    ensures |r| == HandTotal(f)
  {
    if f == [] then []
    else Outcomes(f[..|f| - 1], d, payout) + HandOutcomes(f[|f| - 1].hands, d, payout)
  }

  function HandOutcomes(hands: seq<PlayerHand>, d: DealerHand, payout: BlackjackPayout): (r: seq<HandOutcome>)
    ensures |r| == |hands|
    ensures forall i :: 0 <= i < |hands| ==>
              r[i] == HandOutcome(hands[i].status, hands[i].bet, hands[i].CalculateWinnings(d, payout))
  {
    seq(|hands|, i requires 0 <= i < |hands| => HandOutcome(hands[i].status, hands[i].bet, hands[i].CalculateWinnings(d, payout)))
  }

  /** The number of hands over all finished turns. */
  function HandTotal(f: seq<FinishedTurn>): nat {
    if f == [] then 0 else HandTotal(f[..|f| - 1]) + |f[|f| - 1].hands|
  }

  /** The amount a state adds to the money on the table, from the input it takes. */
  function StakeAdded(s: GameState, input: Option<Input>): nat {
    match s
    case Betting => if input.Some? && input.value.Bet? then input.value.amount else 0
    case OfferInsurance(turns, _) =>
      if |turns| == 1 && input.Some? && input.value.Bet? then Min(input.value.amount, turns[0].hand.bet / 2) else 0
    case PlayerDouble(_, c, _, _) => if c.Valid() then c.CurrentHand().bet else 0
    case PlayerSplit(_, c, _, _) => if c.Valid() then c.CurrentHand().bet else 0
    case _ => 0
  }

  /** The order of the states of a round. */
  predicate Follows(s: GameState, t: GameState) {
    match s
    case Betting => t.DealFirstPlayerCards?
    case DealFirstPlayerCards(_, _) => t.DealFirstPlayerCards? || t.DealFirstDealerCard?
    case DealFirstDealerCard(_) => t.DealSecondPlayerCards?
    case DealSecondPlayerCards(_, _) => t.DealSecondPlayerCards? || t.DealHoleCard?
    case DealHoleCard(_, _) =>
      t.OfferEarlySurrender? || t.OfferInsurance? || t.CheckDealerHoleCard? || t.PlayPlayerTurn? || t.RevealHoleCard? || t.RoundOver?
    case OfferEarlySurrender(_, _) => t.RoundOver? || t.OfferInsurance? || t.CheckDealerHoleCard?
    case OfferInsurance(_, _) => t.CheckDealerHoleCard?
    case CheckDealerHoleCard(_, _) => t.RoundOver? || t.PlayPlayerTurn? || t.RevealHoleCard?
    case PlayPlayerTurn(_, _, _, _) => t.PlayerStand? || t.PlayerHit? || t.PlayerDouble? || t.PlayerSplit? || t.PlayerSurrender?
    case PlayerStand(_, _, _, _) => t.PlayPlayerTurn? || t.RevealHoleCard?
    case PlayerHit(_, _, _, _) => t.PlayPlayerTurn? || t.RevealHoleCard?
    case PlayerDouble(_, _, _, _) => t.PlayPlayerTurn? || t.RevealHoleCard?
    case PlayerSplit(_, _, _, _) => t.DealFirstSplitCard?
    case DealFirstSplitCard(_, _, _, _, _) => t.DealSecondSplitCard?
    case DealSecondSplitCard(_, _, _, _, _) => t.PlayPlayerTurn? || t.RevealHoleCard?
    case PlayerSurrender(_, _, _, _) => t.PlayPlayerTurn? || t.RevealHoleCard?
    case RevealHoleCard(_, _) => t.PlayDealerTurn? || t.RoundOver?
    case PlayDealerTurn(_, _) => t.PlayDealerTurn? || t.RoundOver?
    case RoundOver(_, _) => t.Payout?
    case Payout(_, _) => t.Shuffle? || t.Betting?
    case Shuffle => t.Betting?
  }

  /** Whether an input is of the kind a state waits for. */
  predicate AcceptsKind(s: GameState, input: Option<Input>) {
    match s
    case Betting => input.Some? && input.value.Bet?
    case OfferEarlySurrender(_, _) => input.Some? && input.value.Choice?
    case OfferInsurance(_, _) => input.Some? && input.value.Bet?
    case PlayPlayerTurn(_, _, _, _) => input.Some? && input.value.Action?
    case _ => true
  }

  // ---------------------------------------------------------------------------------
  // The table

  /** The table: the shoe, the rules and the statistics. */
  class Table {
    const shoe: Shoe
    const rules: Rules
    const statistics: Statistics

    ghost predicate Valid()
      reads this, shoe, statistics
    {
      shoe.Valid() && statistics.Valid()
    }

    /** A table over a shoe and rules, with fresh statistics. */
    constructor (shoe: Shoe, rules: Rules)
      requires shoe.Valid()
      ensures Valid() && this.shoe == shoe && this.rules == rules && fresh(statistics)
      ensures statistics.turnsPlayed == 0 && statistics.handsPlayed == 0
    {
      this.shoe := shoe;
      this.rules := rules;
      statistics := new Statistics();
    }

    /** `pick` names a card the shoe still holds: the card the random draw returns. */
    ghost predicate CanDraw(pick: nat)
      reads this, shoe
    {
      pick < |shoe.weights| && shoe.weights[pick] > 0
    }

    /**
     * `deal_first_player_card`: the last bet not yet dealt gets a one-card hand; once
     * every bet is dealt the dealer takes a card.
     */
    method DealFirstPlayerCard(bets: seq<nat>, turns: seq<PendingTurn>, pick: nat) returns (r: GameState)
      requires Valid() && CanDraw(pick)
      modifies shoe
      ensures Valid()
      ensures bets == [] ==> unchanged(shoe) && r == GameState.DealFirstDealerCard(turns)
      ensures bets != [] ==> Drew(shoe, pick)
      ensures bets != [] ==>
                var turns' := turns + [PendingFrom(NewPlayerHand(FromOrdinal(pick), bets[|bets| - 1]))];
                r == if |bets| == 1 then GameState.DealFirstDealerCard(turns') else DealFirstPlayerCards(bets[..|bets| - 1], turns')
      ensures r.DealFirstPlayerCards? ==> |r.bets| + |r.playerTurns| == |bets| + |turns|
      ensures r.DealFirstDealerCard? ==> |r.playerTurns| == |bets| + |turns|
      ensures WellFormed(DealFirstPlayerCards(bets, turns)) ==> WellFormed(r)
      ensures Stake(r) == Stake(DealFirstPlayerCards(bets, turns))
      ensures Follows(DealFirstPlayerCards(bets, turns), r)
    {
      var ts := turns;
      var bs := bets;
      if bs != [] {
        var bet := bs[|bs| - 1];
        bs := bs[..|bs| - 1];
        var card := shoe.DrawCard(pick);
        ts := ts + [PendingFrom(NewPlayerHand(card, bet))];
        FirstPlayerCardStep(bets, turns, card);
      }
      if bs == [] {
        r := GameState.DealFirstDealerCard(ts);
      } else {
        r := DealFirstPlayerCards(bs, ts);
      }
    }

    /** `deal_first_dealer_card`: the dealer's hand starts with one card. */
    method DealFirstDealerCard(turns: seq<PendingTurn>, pick: nat) returns (r: GameState)
      requires Valid() && CanDraw(pick)
      modifies shoe
      ensures Valid() && Drew(shoe, pick)
      ensures r == DealSecondPlayerCards(turns, NewDealerHand(FromOrdinal(pick), rules.dealerSoft17))
      ensures WellFormed(GameState.DealFirstDealerCard(turns)) ==> WellFormed(r)
      ensures Stake(r) == Stake(GameState.DealFirstDealerCard(turns))
      ensures Follows(GameState.DealFirstDealerCard(turns), r)
    {
      var card := shoe.DrawCard(pick);
      r := DealSecondPlayerCards(turns, NewDealerHand(card, rules.dealerSoft17));
    }

    /**
     * `deal_second_player_card`: the first hand still holding one card gets its second;
     * when none is left the dealer takes the hole card.
     */
    method DealSecondPlayerCard(turns: seq<PendingTurn>, dealer: DealerHand, pick: nat) returns (r: GameState)
      requires Valid() && CanDraw(pick)
      requires var k := FirstOneCard(turns, 0); k < |turns| ==> turns[k].hand.status == InPlay
      modifies shoe
      ensures Valid()
      ensures var k := FirstOneCard(turns, 0);
              && (k == |turns| ==> unchanged(shoe) && r == GameState.DealHoleCard(turns, dealer))
              && (k < |turns| ==>
                    && Drew(shoe, pick)
                    && r == DealSecondPlayerCards(turns[k := turns[k].(hand := turns[k].hand.Add(FromOrdinal(pick)))], dealer))
      ensures WellFormed(DealSecondPlayerCards(turns, dealer)) ==> WellFormed(r)
      ensures Stake(r) == Stake(DealSecondPlayerCards(turns, dealer))
      ensures Follows(DealSecondPlayerCards(turns, dealer), r)
    {
      var k := FirstOneCard(turns, 0);
      if k < |turns| {
        var card := shoe.DrawCard(pick);
        SecondPlayerCardStep(turns, dealer, k, card);
        r := DealSecondPlayerCards(turns[k := turns[k].(hand := turns[k].hand.Add(card))], dealer);
      } else {
        r := GameState.DealHoleCard(turns, dealer);
      }
    }

    /** `deal_hole_card`: the dealer takes the hole card, and the round goes on as HoleCardDealt says. */
    method DealHoleCard(turns: seq<PendingTurn>, dealer: DealerHand, pick: nat) returns (r: GameState)
      requires Valid() && CanDraw(pick) && dealer.status == InPlay
      modifies shoe
      ensures Valid() && Drew(shoe, pick)
      ensures r == HoleCardDealt(rules, turns, dealer.Add(FromOrdinal(pick)))
      ensures WellFormed(GameState.DealHoleCard(turns, dealer)) ==> WellFormed(r)
      ensures Stake(r) == Stake(GameState.DealHoleCard(turns, dealer))
      ensures Follows(GameState.DealHoleCard(turns, dealer), r)
    {
      var card := shoe.DrawCard(pick);
      var d := dealer.Add(card);
      HoleCardStep(rules, turns, dealer, card);
      if d.Showing() < 10 || AllBlackjack(turns) {
        r := StartPlayerPhaseOrEndRound(turns, d);
      } else if rules.offerEarlySurrender {
        r := OfferEarlySurrender(turns, d);
      } else if rules.offerInsurance && d.Showing() == 11 {
        r := OfferInsurance(turns, d);
      } else {
        r := CheckDealerHoleCard(turns, d);
      }
    }

    /** `hit`: the current hand takes a card and play moves on. */
    method HitHand(p: seq<PendingTurn>, c: ActiveTurn, f: seq<FinishedTurn>, d: DealerHand, pick: nat) returns (r: GameState)
      requires Valid() && CanDraw(pick) && c.Valid() && c.CurrentHand().status == InPlay
      modifies shoe
      ensures Valid() && Drew(shoe, pick)
      ensures r == NextPlayerOrDealer(p, c.WithCurrentHand(c.CurrentHand().Add(FromOrdinal(pick))), f, d)
      ensures WellFormed(PlayerHit(p, c, f, d)) ==> WellFormed(r)
      ensures Stake(r) == Stake(PlayerHit(p, c, f, d))
      ensures Follows(PlayerHit(p, c, f, d), r)
    {
      var card := shoe.DrawCard(pick);
      r := ContinuePlayerPhaseOrGoToDealer(p, c.WithCurrentHand(c.CurrentHand().Add(card)), f, d);
      HitStep(p, c, f, d, card);
    }

    /** `double`: the current hand doubles its bet, takes one card and is done; play moves on. */
    method DoubleHand(p: seq<PendingTurn>, c: ActiveTurn, f: seq<FinishedTurn>, d: DealerHand, pick: nat) returns (r: GameState)
      requires Valid() && CanDraw(pick) && c.Valid() && c.CurrentHand().status == InPlay && c.CurrentHand().Size() == 2
      modifies shoe
      ensures Valid() && Drew(shoe, pick)
      ensures r == NextPlayerOrDealer(p, c.WithCurrentHand(c.CurrentHand().Double(FromOrdinal(pick))), f, d)
      ensures WellFormed(PlayerDouble(p, c, f, d)) ==> WellFormed(r)
      ensures Stake(r) == Stake(PlayerDouble(p, c, f, d)) + c.CurrentHand().bet
      ensures Follows(PlayerDouble(p, c, f, d), r)
    {
      var card := shoe.DrawCard(pick);
      r := ContinuePlayerPhaseOrGoToDealer(p, c.WithCurrentHand(c.CurrentHand().Double(card)), f, d);
      DoubleStep(p, c, f, d, card);
    }

    /** `deal_first_split_card`: the current split hand takes its second card. */
    method DealFirstSplitCard(p: seq<PendingTurn>, c: ActiveTurn, newHand: PlayerHand, f: seq<FinishedTurn>, d: DealerHand, pick: nat)
      returns (r: GameState)
      requires Valid() && CanDraw(pick) && c.Valid() && c.CurrentHand().status == InPlay
      modifies shoe
      ensures Valid() && Drew(shoe, pick)
      ensures r == GameState.DealSecondSplitCard(p, c.WithCurrentHand(c.CurrentHand().Add(FromOrdinal(pick))), newHand, f, d)
      ensures WellFormed(GameState.DealFirstSplitCard(p, c, newHand, f, d)) ==> WellFormed(r)
      ensures Stake(r) == Stake(GameState.DealFirstSplitCard(p, c, newHand, f, d))
      ensures Follows(GameState.DealFirstSplitCard(p, c, newHand, f, d), r)
    {
      var card := shoe.DrawCard(pick);
      FirstSplitCardStep(p, c, newHand, f, d, card);
      r := GameState.DealSecondSplitCard(p, c.WithCurrentHand(c.CurrentHand().Add(card)), newHand, f, d);
    }

    /**
     * `deal_second_split_card`: the split-off hand takes its second card and is put at
     * the end of the turn's hands, to be played later; play moves on.
     */
    method DealSecondSplitCard(p: seq<PendingTurn>, c: ActiveTurn, newHand: PlayerHand, f: seq<FinishedTurn>, d: DealerHand, pick: nat)
      returns (r: GameState)
      requires Valid() && CanDraw(pick) && newHand.status == InPlay
      modifies shoe
      ensures Valid() && Drew(shoe, pick)
      ensures r == NextPlayerOrDealer(p, c.Defer(newHand.Add(FromOrdinal(pick))), f, d)
      ensures WellFormed(GameState.DealSecondSplitCard(p, c, newHand, f, d)) ==> WellFormed(r)
      ensures Stake(r) == Stake(GameState.DealSecondSplitCard(p, c, newHand, f, d))
      ensures Follows(GameState.DealSecondSplitCard(p, c, newHand, f, d), r)
    {
      var card := shoe.DrawCard(pick);
      r := ContinuePlayerPhaseOrGoToDealer(p, c.Defer(newHand.Add(card)), f, d);
      SecondSplitCardStep(p, c, newHand, f, d, card);
    }

    /** `play_dealer_turn`: the dealer takes a card, and plays on while still in play. */
    method PlayDealerTurn(f: seq<FinishedTurn>, d: DealerHand, pick: nat) returns (r: GameState)
      requires Valid() && CanDraw(pick) && d.status == InPlay
      modifies shoe
      ensures Valid() && Drew(shoe, pick)
      ensures r == PlayDealerTurnOrEndRound(f, d.Add(FromOrdinal(pick)))
      ensures Follows(GameState.PlayDealerTurn(f, d), r)
      ensures WellFormed(GameState.PlayDealerTurn(f, d)) ==> WellFormed(r)
      ensures Stake(r) == Stake(GameState.PlayDealerTurn(f, d))
    {
      var card := shoe.DrawCard(pick);
      r := PlayDealerTurnOrEndRound(f, d.Add(card));
    }

    /**
     * `end_round`: each finished turn's total bet and winnings are worked out, and the
     * statistics count every hand of the round.
     */
    method EndRound(f: seq<FinishedTurn>, d: DealerHand) returns (r: GameState)
      requires Valid()
      modifies statistics
      ensures Valid()
      ensures r == Payout(TotalBets(f), TurnWinnings(f, d, rules.blackjackPayout))
      ensures Recorded(statistics, Outcomes(f, d, rules.blackjackPayout), d.status)
      ensures Stake(r) == FinishedStake(f)
    {
      var outcomes := Outcomes(f, d, rules.blackjackPayout);
      r := Payout(TotalBets(f), TurnWinnings(f, d, rules.blackjackPayout));
      TotalBetsStake(f);
      assert Stake(r) == FinishedStake(f);
      statistics.Update(outcomes, d.status);
    }

    /** `pay_out_winnings`: the shoe is reshuffled before the next round when it has been played far enough. */
    function PayOutWinnings(): (r: GameState)
      reads this, shoe
      requires shoe.Valid()
      ensures r == Shuffle <==> shoe.NeedsShuffle()
      ensures r == Betting <==> !shoe.NeedsShuffle()
    {
      if shoe.NeedsShuffle() then Shuffle else Betting
    }

    /** `shuffle_dispenser`: every card goes back into the shoe and betting starts again. */
    method ShuffleDispenser() returns (r: GameState)
      requires Valid()
      modifies shoe
      ensures Valid() && r == Betting
      ensures shoe.cardsDrawn == 0 && shoe.weights == FullWeights(shoe.decks)
    {
      shoe.Shuffle();
      r := Betting;
    }

    /**
     * What a step does, state by state: the exact next state, the picked card taken from
     * the shoe by each drawing step and put where the engine deals it, every hand recorded
     * in the statistics at the end of the round, a reshuffle after the payout exactly
     * when the shoe needs one, and a full shoe after the shuffle. Every other step leaves
     * the shoe alone, and only the end of the round touches the statistics. The guards
     * are facts WellFormed gives; the choices of the one player come from `input`.
     */
    twostate predicate Stepped(state: GameState, input: Option<Input>, pick: nat, r: ProgressResult)
      reads shoe, statistics
    {
      && (!state.RoundOver? ==> unchanged(statistics))
      && (pick < 52 ==>
        var card := FromOrdinal(pick);
        match state
        case Betting => unchanged(shoe)
        case DealFirstPlayerCards(bets, turns) =>
          && (bets == [] ==> unchanged(shoe) && r == Ok(GameState.DealFirstDealerCard(turns)))
          && (bets != [] ==>
                var turns' := turns + [PendingFrom(NewPlayerHand(card, bets[|bets| - 1]))];
                && Drew(shoe, pick)
                && r == Ok(if |bets| == 1 then GameState.DealFirstDealerCard(turns') else DealFirstPlayerCards(bets[..|bets| - 1], turns')))
        case DealFirstDealerCard(turns) =>
          Drew(shoe, pick) && r == Ok(DealSecondPlayerCards(turns, NewDealerHand(card, rules.dealerSoft17)))
        case DealSecondPlayerCards(turns, dealer) =>
          var k := FirstOneCard(turns, 0);
          && (k == |turns| ==> unchanged(shoe) && r == Ok(GameState.DealHoleCard(turns, dealer)))
          && (k < |turns| && turns[k].hand.status == InPlay ==>
                Drew(shoe, pick) && r == Ok(DealSecondPlayerCards(turns[k := turns[k].(hand := turns[k].hand.Add(card))], dealer)))
        case DealHoleCard(turns, dealer) =>
          dealer.status == InPlay ==> Drew(shoe, pick) && r == Ok(HoleCardDealt(rules, turns, dealer.Add(card)))
        case OfferEarlySurrender(turns, dealer) =>
          && unchanged(shoe)
          && (AcceptsKind(state, input) && |turns| == 1 && turns[0].hand.Size() == 2 && |dealer.cards| > 0 ==>
                r == Ok(if input.value.yes then RoundOver(FinishAll([SurrenderIf(turns[0], true)]), dealer)
                        else if rules.offerInsurance && dealer.Showing() == 11 then OfferInsurance(turns, dealer)
                        else CheckDealerHoleCard(turns, dealer)))
        case OfferInsurance(turns, dealer) =>
          && unchanged(shoe)
          && (AcceptsKind(state, input) && |turns| == 1 ==>
                r == Ok(CheckDealerHoleCard([turns[0].(insuranceBet := Min(input.value.amount, turns[0].hand.bet / 2))], dealer)))
        case CheckDealerHoleCard(turns, dealer) =>
          && unchanged(shoe)
          && r == Ok(if dealer.status == Blackjack then RoundOver(FinishAll(turns), dealer) else StartPlayerPhase(turns, dealer))
        case PlayPlayerTurn(_, _, _, _) => unchanged(shoe)
        case PlayerStand(p, c, f, d) =>
          && unchanged(shoe)
          && (c.Valid() && c.CurrentHand().status == InPlay ==>
                r == Ok(NextPlayerOrDealer(p, c.WithCurrentHand(c.CurrentHand().Stand()), f, d)))
        case PlayerHit(p, c, f, d) =>
          c.Valid() && c.CurrentHand().status == InPlay ==>
            Drew(shoe, pick) && r == Ok(NextPlayerOrDealer(p, c.WithCurrentHand(c.CurrentHand().Add(card)), f, d))
        case PlayerDouble(p, c, f, d) =>
          c.Valid() && c.CurrentHand().status == InPlay && c.CurrentHand().Size() == 2 ==>
            Drew(shoe, pick) && r == Ok(NextPlayerOrDealer(p, c.WithCurrentHand(c.CurrentHand().Double(card)), f, d))
        case PlayerSplit(p, c, f, d) =>
          && unchanged(shoe)
          && (c.Valid() && c.CurrentHand().IsPair() ==> r == Ok(SplitHand(p, c, f, d)))
        case DealFirstSplitCard(p, c, h, f, d) =>
          c.Valid() && c.CurrentHand().status == InPlay ==>
            Drew(shoe, pick) && r == Ok(GameState.DealSecondSplitCard(p, c.WithCurrentHand(c.CurrentHand().Add(card)), h, f, d))
        case DealSecondSplitCard(p, c, h, f, d) =>
          h.status == InPlay ==> Drew(shoe, pick) && r == Ok(NextPlayerOrDealer(p, c.Defer(h.Add(card)), f, d))
        case PlayerSurrender(p, c, f, d) =>
          && unchanged(shoe)
          && (c.Valid() && c.CurrentHand().Size() == 2 ==>
                r == Ok(NextPlayerOrDealer(p, c.WithCurrentHand(c.CurrentHand().Surrender()), f, d)))
        case RevealHoleCard(f, d) => unchanged(shoe) && r == Ok(PlayDealerTurnOrEndRound(f, d))
        case PlayDealerTurn(f, d) =>
          d.status == InPlay ==> Drew(shoe, pick) && r == Ok(PlayDealerTurnOrEndRound(f, d.Add(card)))
        case RoundOver(f, d) =>
          && unchanged(shoe)
          && Recorded(statistics, Outcomes(f, d, rules.blackjackPayout), d.status)
          && r == Ok(Payout(TotalBets(f), TurnWinnings(f, d, rules.blackjackPayout)))
        case Payout(_, _) =>
          && unchanged(shoe)
          && (shoe.Valid() ==> r == Ok(if shoe.NeedsShuffle() then Shuffle else Betting))
        case Shuffle =>
          r == Ok(Betting) && shoe.cardsDrawn == 0 && shoe.weights == FullWeights(shoe.decks))
    }

    /**
     * `progress`: one step of the round from a state the engine produces, as
     * ProgressOutcome describes it. A refused step leaves the table untouched.
     */
    method Progress(state: GameState, input: Option<Input>, pick: nat) returns (r: ProgressResult)
      requires Valid() && WellFormed(state) && CanDraw(pick)
      modifies shoe, statistics
      ensures Valid()
      ensures r.Err? ==> unchanged(shoe) && unchanged(statistics)
      ensures ProgressOutcome(rules, state, input, r)
      ensures Stepped(state, input, pick, r)
    {
      if state.Betting? || state.OfferEarlySurrender? || state.OfferInsurance? || state.PlayPlayerTurn? {
        r := TakeInput(state, input, pick);
      } else if state.DealFirstPlayerCards? || state.DealFirstDealerCard? || state.DealSecondPlayerCards? || state.DealHoleCard? {
        r := DealRound(state, input, pick);
      } else if state.CheckDealerHoleCard? || state.PlayerStand? || state.PlayerSplit? || state.PlayerSurrender? {
        r := ActWithoutDrawing(state, input, pick);
      } else if state.PlayerHit? || state.PlayerDouble? || state.DealFirstSplitCard? || state.DealSecondSplitCard? {
        r := DrawForPlayer(state, input, pick);
      } else {
        r := Settle(state, input, pick);
      }
    }

    /** The states that wait for the player: the bet, the early-surrender and insurance choices, and the action on a hand. */
    method TakeInput(state: GameState, input: Option<Input>, pick: nat) returns (r: ProgressResult)
      requires Valid() && WellFormed(state) && CanDraw(pick)
      requires state.Betting? || state.OfferEarlySurrender? || state.OfferInsurance? || state.PlayPlayerTurn?
      modifies shoe
      ensures Valid()
      ensures r.Err? ==> unchanged(shoe)
      ensures ProgressOutcome(rules, state, input, r)
      ensures Stepped(state, input, pick, r)
    {
      if state.Betting? {
        r := OnBetting(state, input, pick);
      } else if state.OfferEarlySurrender? {
        r := OnOfferEarlySurrender(state, input, pick);
      } else if state.OfferInsurance? {
        r := OnOfferInsurance(state, input, pick);
      } else {
        r := OnPlayPlayerTurn(state, input, pick);
      }
    }

    /** The initial deal: two cards to each hand and to the dealer, the second dealer card face down. */
    method DealRound(state: GameState, input: Option<Input>, pick: nat) returns (r: ProgressResult)
      requires Valid() && WellFormed(state) && CanDraw(pick)
      requires state.DealFirstPlayerCards? || state.DealFirstDealerCard? || state.DealSecondPlayerCards? || state.DealHoleCard?
      modifies shoe
      ensures Valid()
      ensures r.Err? ==> unchanged(shoe)
      ensures ProgressOutcome(rules, state, input, r)
      ensures Stepped(state, input, pick, r)
    {
      if state.DealFirstPlayerCards? {
        r := OnDealFirstPlayerCards(state, input, pick);
      } else if state.DealFirstDealerCard? {
        r := OnDealFirstDealerCard(state, input, pick);
      } else if state.DealSecondPlayerCards? {
        r := OnDealSecondPlayerCards(state, input, pick);
      } else {
        r := OnDealHoleCard(state, input, pick);
      }
    }

    /** The steps that draw no card: the hole-card check, stand, split and surrender. */
    method ActWithoutDrawing(state: GameState, input: Option<Input>, pick: nat) returns (r: ProgressResult)
      requires Valid() && WellFormed(state) && CanDraw(pick)
      requires state.CheckDealerHoleCard? || state.PlayerStand? || state.PlayerSplit? || state.PlayerSurrender?
      modifies shoe
      ensures Valid()
      ensures r.Err? ==> unchanged(shoe)
      ensures ProgressOutcome(rules, state, input, r)
      ensures Stepped(state, input, pick, r)
    {
      if state.CheckDealerHoleCard? {
        r := OnCheckDealerHoleCard(state, input, pick);
      } else if state.PlayerStand? {
        r := OnPlayerStand(state, input, pick);
      } else if state.PlayerSplit? {
        r := OnPlayerSplit(state, input, pick);
      } else {
        r := OnPlayerSurrender(state, input, pick);
      }
    }

    /** The steps that draw a card for a player hand: hit, double and the two split cards. */
    method DrawForPlayer(state: GameState, input: Option<Input>, pick: nat) returns (r: ProgressResult)
      requires Valid() && WellFormed(state) && CanDraw(pick)
      requires state.PlayerHit? || state.PlayerDouble? || state.DealFirstSplitCard? || state.DealSecondSplitCard?
      modifies shoe
      ensures Valid()
      ensures r.Err? ==> unchanged(shoe)
      ensures ProgressOutcome(rules, state, input, r)
      ensures Stepped(state, input, pick, r)
    {
      if state.PlayerHit? {
        r := OnPlayerHit(state, input, pick);
      } else if state.PlayerDouble? {
        r := OnPlayerDouble(state, input, pick);
      } else if state.DealFirstSplitCard? {
        r := OnDealFirstSplitCard(state, input, pick);
      } else {
        r := OnDealSecondSplitCard(state, input, pick);
      }
    }

    /** The steps after the player phase: the dealer's turn, the settlement and the reshuffle. */
    method Settle(state: GameState, input: Option<Input>, pick: nat) returns (r: ProgressResult)
      requires Valid() && WellFormed(state) && CanDraw(pick)
      requires state.RevealHoleCard? || state.PlayDealerTurn? || state.RoundOver? || state.Payout? || state.Shuffle?
      modifies shoe, statistics
      ensures Valid()
      ensures r.Err? ==> unchanged(shoe)
      ensures ProgressOutcome(rules, state, input, r)
      ensures Stepped(state, input, pick, r)
    {
      if state.RevealHoleCard? {
        r := OnRevealHoleCard(state, input, pick);
      } else if state.PlayDealerTurn? {
        r := OnPlayDealerTurn(state, input, pick);
      } else if state.RoundOver? {
        r := OnRoundOver(state, input, pick);
      } else if state.Payout? {
        r := OnPayout(state, input, pick);
      } else {
        r := OnShuffle(state, input, pick);
      }
    }

    method OnBetting(state: GameState, input: Option<Input>, pick: nat) returns (r: ProgressResult)
      requires Valid() && WellFormed(state) && CanDraw(pick) && state.Betting?
      modifies shoe
      ensures Valid()
      ensures r.Err? ==> unchanged(shoe)
      ensures ProgressOutcome(rules, state, input, r)
      ensures Stepped(state, input, pick, r)
    {
      match state {
        case Betting =>
          if input.Some? && input.value.Bet? {
            r := PlaceBet(rules, input.value.amount);
            if r.Ok? {
              assert SumLast([input.value.amount]) == input.value.amount by {
                assert [input.value.amount][..0] == [];
              }
            }
          } else {
            r := Err((state, WrongInput));
          }
      }
    }

    method OnDealFirstPlayerCards(state: GameState, input: Option<Input>, pick: nat) returns (r: ProgressResult)
      requires Valid() && WellFormed(state) && CanDraw(pick) && state.DealFirstPlayerCards?
      modifies shoe
      ensures Valid()
      ensures r.Err? ==> unchanged(shoe)
      ensures ProgressOutcome(rules, state, input, r)
      ensures Stepped(state, input, pick, r)
    {
      match state {
        case DealFirstPlayerCards(bets, turns) =>
          var s := DealFirstPlayerCard(bets, turns, pick);
          r := Ok(s);
      }
    }

    method OnDealFirstDealerCard(state: GameState, input: Option<Input>, pick: nat) returns (r: ProgressResult)
      requires Valid() && WellFormed(state) && CanDraw(pick) && state.DealFirstDealerCard?
      modifies shoe
      ensures Valid()
      ensures r.Err? ==> unchanged(shoe)
      ensures ProgressOutcome(rules, state, input, r)
      ensures Stepped(state, input, pick, r)
    {
      match state {
        case DealFirstDealerCard(turns) =>
          var s := DealFirstDealerCard(turns, pick);
          r := Ok(s);
      }
    }

    method OnDealSecondPlayerCards(state: GameState, input: Option<Input>, pick: nat) returns (r: ProgressResult)
      requires Valid() && WellFormed(state) && CanDraw(pick) && state.DealSecondPlayerCards?
      modifies shoe
      ensures Valid()
      ensures r.Err? ==> unchanged(shoe)
      ensures ProgressOutcome(rules, state, input, r)
      ensures Stepped(state, input, pick, r)
    {
      match state {
        case DealSecondPlayerCards(turns, dealer) =>
          var s := DealSecondPlayerCard(turns, dealer, pick);
          r := Ok(s);
      }
    }

    method OnDealHoleCard(state: GameState, input: Option<Input>, pick: nat) returns (r: ProgressResult)
      requires Valid() && WellFormed(state) && CanDraw(pick) && state.DealHoleCard?
      modifies shoe
      ensures Valid()
      ensures r.Err? ==> unchanged(shoe)
      ensures ProgressOutcome(rules, state, input, r)
      ensures Stepped(state, input, pick, r)
    {
      match state {
        case DealHoleCard(turns, dealer) =>
          var s := DealHoleCard(turns, dealer, pick);
          r := Ok(s);
      }
    }

    method OnOfferEarlySurrender(state: GameState, input: Option<Input>, pick: nat) returns (r: ProgressResult)
      requires Valid() && WellFormed(state) && CanDraw(pick) && state.OfferEarlySurrender?
      modifies shoe
      ensures Valid()
      ensures r.Err? ==> unchanged(shoe)
      ensures ProgressOutcome(rules, state, input, r)
      ensures Stepped(state, input, pick, r)
    {
      match state {
        case OfferEarlySurrender(turns, dealer) =>
          if input.Some? && input.value.Choice? {
            var yes := input.value.yes;
            var s := ChooseEarlySurrender(rules, turns, dealer, [yes]);
            assert seq(1, i requires 0 <= i < 1 => SurrenderIf(turns[i], [yes][i])) == [SurrenderIf(turns[0], yes)];
            assert !yes ==> [SurrenderIf(turns[0], yes)] == turns;
            r := Ok(s);
          } else {
            r := Err((state, WrongInput));
          }
      }
    }

    method OnOfferInsurance(state: GameState, input: Option<Input>, pick: nat) returns (r: ProgressResult)
      requires Valid() && WellFormed(state) && CanDraw(pick) && state.OfferInsurance?
      modifies shoe
      ensures Valid()
      ensures r.Err? ==> unchanged(shoe)
      ensures ProgressOutcome(rules, state, input, r)
      ensures Stepped(state, input, pick, r)
    {
      match state {
        case OfferInsurance(turns, dealer) =>
          if input.Some? && input.value.Bet? {
            var s := BetInsurance(turns, dealer, [input.value.amount]);
            OnePlayerInsurance(turns[0], s.playerTurns[0], input.value.amount);
            assert s.playerTurns == [s.playerTurns[0]] && turns == [turns[0]];
            r := Ok(s);
          } else {
            r := Err((state, WrongInput));
          }
      }
    }

    method OnCheckDealerHoleCard(state: GameState, input: Option<Input>, pick: nat) returns (r: ProgressResult)
      requires Valid() && WellFormed(state) && CanDraw(pick) && state.CheckDealerHoleCard?
      modifies shoe
      ensures Valid()
      ensures r.Err? ==> unchanged(shoe)
      ensures ProgressOutcome(rules, state, input, r)
      ensures Stepped(state, input, pick, r)
    {
      match state {
        case CheckDealerHoleCard(turns, dealer) =>
          var s := CheckHoleCard(turns, dealer);
          r := Ok(s);
      }
    }

    method OnPlayPlayerTurn(state: GameState, input: Option<Input>, pick: nat) returns (r: ProgressResult)
      requires Valid() && WellFormed(state) && CanDraw(pick) && state.PlayPlayerTurn?
      modifies shoe
      ensures Valid()
      ensures r.Err? ==> unchanged(shoe)
      ensures ProgressOutcome(rules, state, input, r)
      ensures Stepped(state, input, pick, r)
    {
      match state {
        case PlayPlayerTurn(p, c, f, d) =>
          if input.Some? && input.value.Action? {
            r := ChooseAction(rules, p, c, f, d, input.value.action);
          } else {
            r := Err((state, WrongInput));
          }
      }
    }

    method OnPlayerStand(state: GameState, input: Option<Input>, pick: nat) returns (r: ProgressResult)
      requires Valid() && WellFormed(state) && CanDraw(pick) && state.PlayerStand?
      modifies shoe
      ensures Valid()
      ensures r.Err? ==> unchanged(shoe)
      ensures ProgressOutcome(rules, state, input, r)
      ensures Stepped(state, input, pick, r)
    {
      match state {
        case PlayerStand(p, c, f, d) =>
          var s := StandHand(p, c, f, d);
          r := Ok(s);
      }
    }

    method OnPlayerHit(state: GameState, input: Option<Input>, pick: nat) returns (r: ProgressResult)
      requires Valid() && WellFormed(state) && CanDraw(pick) && state.PlayerHit?
      modifies shoe
      ensures Valid()
      ensures r.Err? ==> unchanged(shoe)
      ensures ProgressOutcome(rules, state, input, r)
      ensures Stepped(state, input, pick, r)
    {
      match state {
        case PlayerHit(p, c, f, d) =>
          var s := HitHand(p, c, f, d, pick);
          r := Ok(s);
      }
    }

    method OnPlayerDouble(state: GameState, input: Option<Input>, pick: nat) returns (r: ProgressResult)
      requires Valid() && WellFormed(state) && CanDraw(pick) && state.PlayerDouble?
      modifies shoe
      ensures Valid()
      ensures r.Err? ==> unchanged(shoe)
      ensures ProgressOutcome(rules, state, input, r)
      ensures Stepped(state, input, pick, r)
    {
      match state {
        case PlayerDouble(p, c, f, d) =>
          var s := DoubleHand(p, c, f, d, pick);
          r := Ok(s);
      }
    }

    method OnPlayerSplit(state: GameState, input: Option<Input>, pick: nat) returns (r: ProgressResult)
      requires Valid() && WellFormed(state) && CanDraw(pick) && state.PlayerSplit?
      modifies shoe
      ensures Valid()
      ensures r.Err? ==> unchanged(shoe)
      ensures ProgressOutcome(rules, state, input, r)
      ensures Stepped(state, input, pick, r)
    {
      match state {
        case PlayerSplit(p, c, f, d) =>
          r := Ok(SplitHand(p, c, f, d));
      }
    }

    method OnDealFirstSplitCard(state: GameState, input: Option<Input>, pick: nat) returns (r: ProgressResult)
      requires Valid() && WellFormed(state) && CanDraw(pick) && state.DealFirstSplitCard?
      modifies shoe
      ensures Valid()
      ensures r.Err? ==> unchanged(shoe)
      ensures ProgressOutcome(rules, state, input, r)
      ensures Stepped(state, input, pick, r)
    {
      match state {
        case DealFirstSplitCard(p, c, h, f, d) =>
          var s := DealFirstSplitCard(p, c, h, f, d, pick);
          r := Ok(s);
      }
    }

    method OnDealSecondSplitCard(state: GameState, input: Option<Input>, pick: nat) returns (r: ProgressResult)
      requires Valid() && WellFormed(state) && CanDraw(pick) && state.DealSecondSplitCard?
      modifies shoe
      ensures Valid()
      ensures r.Err? ==> unchanged(shoe)
      ensures ProgressOutcome(rules, state, input, r)
      ensures Stepped(state, input, pick, r)
    {
      match state {
        case DealSecondSplitCard(p, c, h, f, d) =>
          var s := DealSecondSplitCard(p, c, h, f, d, pick);
          r := Ok(s);
      }
    }

    method OnPlayerSurrender(state: GameState, input: Option<Input>, pick: nat) returns (r: ProgressResult)
      requires Valid() && WellFormed(state) && CanDraw(pick) && state.PlayerSurrender?
      modifies shoe
      ensures Valid()
      ensures r.Err? ==> unchanged(shoe)
      ensures ProgressOutcome(rules, state, input, r)
      ensures Stepped(state, input, pick, r)
    {
      match state {
        case PlayerSurrender(p, c, f, d) =>
          var s := SurrenderHand(p, c, f, d);
          r := Ok(s);
      }
    }

    method OnRevealHoleCard(state: GameState, input: Option<Input>, pick: nat) returns (r: ProgressResult)
      requires Valid() && WellFormed(state) && CanDraw(pick) && state.RevealHoleCard?
      modifies shoe
      ensures Valid()
      ensures r.Err? ==> unchanged(shoe)
      ensures ProgressOutcome(rules, state, input, r)
      ensures Stepped(state, input, pick, r)
    {
      match state {
        case RevealHoleCard(f, d) =>
          var s := PlayDealerTurnOrEndRound(f, d);
          r := Ok(s);
      }
    }

    method OnPlayDealerTurn(state: GameState, input: Option<Input>, pick: nat) returns (r: ProgressResult)
      requires Valid() && WellFormed(state) && CanDraw(pick) && state.PlayDealerTurn?
      modifies shoe
      ensures Valid()
      ensures r.Err? ==> unchanged(shoe)
      ensures ProgressOutcome(rules, state, input, r)
      ensures Stepped(state, input, pick, r)
    {
      match state {
        case PlayDealerTurn(f, d) =>
          var s := PlayDealerTurn(f, d, pick);
          r := Ok(s);
      }
    }

    method OnRoundOver(state: GameState, input: Option<Input>, pick: nat) returns (r: ProgressResult)
      requires Valid() && WellFormed(state) && CanDraw(pick) && state.RoundOver?
      modifies shoe, statistics
      ensures Valid()
      ensures r.Err? ==> unchanged(shoe)
      ensures ProgressOutcome(rules, state, input, r)
      ensures Stepped(state, input, pick, r)
    {
      match state {
        case RoundOver(f, d) =>
          var s := EndRound(f, d);
          r := Ok(s);
          assert unchanged(shoe);
      }
    }

    method OnPayout(state: GameState, input: Option<Input>, pick: nat) returns (r: ProgressResult)
      requires Valid() && WellFormed(state) && CanDraw(pick) && state.Payout?
      modifies shoe
      ensures Valid()
      ensures r.Err? ==> unchanged(shoe)
      ensures ProgressOutcome(rules, state, input, r)
      ensures Stepped(state, input, pick, r)
    {
      match state {
        case Payout(_, _) =>
          r := Ok(PayOutWinnings());
      }
    }

    method OnShuffle(state: GameState, input: Option<Input>, pick: nat) returns (r: ProgressResult)
      requires Valid() && WellFormed(state) && CanDraw(pick) && state.Shuffle?
      modifies shoe
      ensures Valid()
      ensures r.Err? ==> unchanged(shoe)
      ensures ProgressOutcome(rules, state, input, r)
      ensures Stepped(state, input, pick, r)
    {
      match state {
        case Shuffle =>
          var s := ShuffleDispenser();
          r := Ok(s);
      }
    }
  }

  /**
   * What one step of a round does. A state that waits for input refuses input of the
   * wrong kind, and a rule check refuses a bet, double, split or surrender; both
   * return the unchanged state. Every other step succeeds and lands on a well-formed
   * state that follows in the order of a round. Money enters the table only through
   * a bet, an insurance bet, a double or a split, and leaves only at the payout.
   */
  predicate ProgressOutcome(rules: Rules, state: GameState, input: Option<Input>, r: ProgressResult) {
    && (r.Err? ==> r.error.0 == state)
    && (!AcceptsKind(state, input) ==> r == Err((state, WrongInput)))
    && (!state.NeedsInput() ==> r.Ok?)
    && (state.Betting? && AcceptsKind(state, input) ==> r == PlaceBet(rules, input.value.amount))
    && (state.PlayPlayerTurn? && state.currentTurn.Valid() && AcceptsKind(state, input) ==>
          r == ChooseAction(rules, state.pendingTurns, state.currentTurn, state.finishedTurns, state.dealerHand, input.value.action))
    && (state.OfferEarlySurrender? || state.OfferInsurance? ==> (r.Ok? <==> AcceptsKind(state, input)))
    && (r.Ok? ==> WellFormed(r.value) && Follows(state, r.value))
    && (r.Ok? && !state.Payout? ==> Stake(r.value) == Stake(state) + StakeAdded(state, input))
    && (r.Ok? && state.Payout? ==> Stake(r.value) == 0)
  }

  /** The index of the first turn at or after `i` whose hand holds one card, or the number of turns. */
  function FirstOneCard(turns: seq<PendingTurn>, i: nat): (k: nat)
    requires i <= |turns|
    ensures i <= k <= |turns|
    ensures k < |turns| ==> |turns[k].hand.cards| == 1
    ensures forall j :: i <= j < k ==> |turns[j].hand.cards| != 1
    decreases |turns| - i
  {
    if i == |turns| || |turns[i].hand.cards| == 1 then i else FirstOneCard(turns, i + 1)
  }

  /** Every player's hand is a blackjack. */
  predicate AllBlackjack(turns: seq<PendingTurn>) {
    forall i :: 0 <= i < |turns| ==> turns[i].hand.status == Blackjack
  }
}
