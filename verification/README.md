# Blackjack round engine, modelled in Dafny

This project models the core of a blackjack game written in Rust. It has two versions.

- **blackjack-core** is a library. A round is a value of the `GameState` sum type, and
  `Table::progress(state, input)` takes one step. States that wait for the player
  (betting, early surrender, insurance, the hand action) check the kind of the input
  and the table rules. On a refusal they hand the state back unchanged with an error.
  Every other state draws from the shoe or moves turns along on its own.
  - Around the engine sit the card and hand arithmetic, the split manager, the shoe,
    a 4×13 deck of counts, per-round statistics and a basic-strategy advisor.
- **The older single-binary game** under `src/` keeps its hands and shoe as objects
  updated in place. It has its own statistics and a basic-strategy player that bets
  a flat amount for a fixed number of turns.

The Dafny modules are listed below.

- `Cards`, `Hands`: ranks and worths, the ordinal numbering and its inverse, hand
  values with ace deflation, and the player and dealer hands with their status rules.
- `Turns`: the split manager.
  - A pending turn holds one hand and an insurance bet.
  - An active turn holds its hands and the index of the hand being played.
  - A finished turn is what is settled.
- `State`: the round's states, the invariant that every state the engine produces
  satisfies (`WellFormed`), and the money on the table (`Stake`).
- `TableRules`: the table rules and their defaults.
- `Shoes`: the weighted shoe.
- `Decks`: the deck of counts.
- `Stats`: the core statistics.
- `Game`: the transition functions and the `Table` class with `Progress`.
- `BasicStrategy`: the core advisor.
- `LegacyCards`, `LegacyStats`, `LegacyInput`, `LegacyBasic`: the older game.

Hands, turns and states are values in the core model. The engine moves them by value
from one state to the next. The shoe, the statistics and the table are objects.

The main promises are proved about the model:
- `Progress` follows `ProgressOutcome`.
  - Wrong input is refused with the same state.
  - A rule check refuses a bet, double, split or surrender as the rule says.
  - Every other step lands on a well-formed state that follows in the order of a round.
  - Money enters only through a bet, an insurance bet, a double or a split, and leaves
    only at the payout.
- Every `PlayPlayerTurn` has a current hand in play.
- With the corrected strategy tables (see Findings), the advisor only proposes actions the engine accepts.

## Model

| member | source | states |
|---|---|---|
| `Cards.Worth` | blackjack-core/src/card.rs:52-65 | a rank is worth 2 to 11; 11 exactly for an ace, 10 exactly for ten and the face cards, and rank index + 2 otherwise |
| `Cards.FromOrdinal` | blackjack-core/src/card.rs:91-116 | the card of ordinal o has rank index o / 4 and suit index o % 4 (the older game's src/card.rs:66-91 is the same table); ordinals from 52 up are outside its domain |
| `Cards.ToOrdinal` | blackjack-core/src/card.rs:91-116 | every card has an ordinal below 52 |
| `Cards.FromOrdinalCoversEveryCard` | blackjack-core/src/card.rs:91-116 | every (rank, suit) card is produced: the ordinal of a card maps back to it |
| `Cards.FromOrdinalInjective` | blackjack-core/src/card.rs:91-116 | two ordinals below 52 that give the same card are equal |
| `Cards.IndicesIdentifyCard` | blackjack-core/src/card.rs:91-116 | the rank and suit indices determine the card |
| `Hands.Value.Add` | blackjack-core/src/card.rs:146-166 | adding a value: a total over 21 is never soft, the total is the sum less 10 per deflated ace, the result is soft only if a side was, and a total drops only when it would have passed 21 (src/card.rs:127-141 is the same code) |
| `Hands.ValueOfIsBestTotal` | blackjack-core/src/card.rs:136-166 | adding the cards one by one gives the best total: the hard sum, plus 10 exactly when there is an ace and that keeps it at 21 or less |
| `Hands.HardSumBounds` | blackjack-core/src/card.rs:136-144 | the hard sum of n cards is at least n, and at least 2n without an ace |
| `Hands.ValueOfAppend` | blackjack-core/src/card.rs:268-278 | the value of the cards with one more is the old value plus that card's value |
| `Hands.SoftTwelveIsAcePair` | blackjack-core/src/card.rs:146-166 | the only cards that add up to a soft 12 are a pair of aces |
| `Hands.PlayerStatus` | blackjack-core/src/card.rs:272-277 | after a card: bust exactly from 22, blackjack exactly on a two-card 21, stood exactly on any other 21, in play exactly below 21 |
| `Hands.DealerStatus` | blackjack-core/src/card.rs:211-217 | after a card: bust exactly from 22; in play exactly below 17 or on a soft 17 when hitting soft 17; blackjack exactly on a two-card soft 21; stood on every other total from 17 to 21 |
| `Hands.PlayerHand.IsPair` | blackjack-core/src/card.rs:352-354 | a pair is two cards of equal rank, so of equal worth |
| `Hands.DealerHand.Add` | blackjack-core/src/card.rs:205-219 | the card is appended; the dealer busts from 22, has blackjack on a two-card soft 21, stays in play below 17 and on a soft 17 when hitting soft 17, and stands otherwise |
| `Hands.DealerHand.Showing` | blackjack-core/src/card.rs:235-237 | the up card's worth, between 2 and 11 |
| `Hands.PlayerHand.Add` | blackjack-core/src/card.rs:268-278 | on a hand in play: the card is appended and the bet kept; bust from 22, blackjack on a two-card 21, stood on any other 21, in play below |
| `Hands.PlayerHand.Stand` | blackjack-core/src/card.rs:294-297 | only the status changes, to stood |
| `Hands.PlayerHand.Double` | blackjack-core/src/card.rs:302-319 | on a two-card hand in play: the bet doubles, one card is added, and the hand is never left in play |
| `Hands.PlayerHand.Split` | blackjack-core/src/card.rs:326-331 | a pair splits into the first card, valued as that card alone, and a new one-card hand of the second card with the same bet; together they hold the pair |
| `Hands.PlayerHand.Surrender` | blackjack-core/src/card.rs:334-341 | on a two-card hand only the status changes, to surrendered |
| `Hands.HandWinnings` | blackjack-core/src/card.rs:365-380 | the case table never pays more than a 3:2 blackjack; a surrender gets half the bet back, and any hand but a blackjack gets nothing, its bet or twice its bet |
| `Hands.PlayerHand.CalculateWinnings` | blackjack-core/src/card.rs:359-404 | a bust gets nothing even when the dealer busts; against a dealer blackjack only a blackjack pushes and a surrender keeps half; an unmatched blackjack gets the 3:2 or 6:5 payout; a stood hand gets twice its bet when the dealer busts |
| `Hands.WinningsTellOutcome` | blackjack-core/src/card.rs:359-404 | by the payout case table, a hand is paid more than its bet exactly when it beats the dealer, its bet exactly on a tie, never more than a 3:2 blackjack, and half its bet on a surrender or nothing otherwise |
| `Turns.PendingFrom` | blackjack-core/src/card.rs:418-425 | a new turn holds the hand with no insurance |
| `Turns.ActiveFrom` | blackjack-core/src/card.rs:444-452 | an active turn starts with the one hand at index 0 and keeps the insurance |
| `Turns.ActiveTurn.WithCurrentHand` | blackjack-core/src/card.rs:456-462 | replacing the current hand changes only that entry |
| `Turns.ActiveTurn.HandCount` | blackjack-core/src/card.rs:464-466 | the hand count as a u8: the number of hands below 256, and that number modulo 256 in general |
| `Turns.ActiveTurn.Defer` | blackjack-core/src/card.rs:470-472 | a deferred hand is appended and the current hand is kept |
| `Turns.FinishedFrom` | blackjack-core/src/card.rs:507-514 | a pending turn finishes as its one hand with its insurance |
| `Turns.FirstInPlayFrom` | blackjack-core/src/card.rs:480-492 | the first hand in play at or after an index, or the end when there is none |
| `Turns.ContinuePlaying` | blackjack-core/src/card.rs:480-492 | the index never decreases; Ok gives the same hands with a current hand in play and nothing in play skipped; Err exactly when no hand from the index on is in play, returning the same hands and insurance as a finished turn |
| `Turns.SplitAddsOneBet` | blackjack-core/src/card.rs:326-331 | splitting the current hand and deferring the new one raises the turn's bets by one more bet |
| `Turns.FinishedTurn.CalculateWinnings` | blackjack-core/src/card.rs:520-529 | the insurance returns twice its stake exactly when the dealer has blackjack and is lost otherwise; the hands are paid on top |
| `Turns.WinningsBounded` | blackjack-core/src/card.rs:520-529 | a finished turn is paid at most 2·insurance + 5/2 of its bets |
| `Turns.HandsWinningsBounded` | blackjack-core/src/card.rs:359-404 | the hands of a turn are paid at most 5/2 of their bets |
| `State.FinishAll` | blackjack-core/src/game.rs:502-504 | every pending turn becomes the finished turn of its one hand, in order |
| `State.NewHandDealt` | blackjack-core/src/card.rs:284-291 | a new hand holds its one card, valued as that card, and is in play |
| `State.AddKeepsConsistent` | blackjack-core/src/card.rs:268-278 | after a card the hand's value is still the value of its cards |
| `State.DoubleKeepsConsistent` | blackjack-core/src/card.rs:302-319 | after a double the hand's value is still the value of its cards |
| `State.ReplaceCurrentStake` | blackjack-core/src/card.rs:456-462 | replacing the current hand changes the turn's stake by the difference of the bets |
| `State.DeferStake` | blackjack-core/src/card.rs:470-472 | deferring a hand adds its bet to the turn's stake |
| `State.FinishAllStake` | blackjack-core/src/game.rs:502-504 | finishing the pending turns keeps the money on the table |
| `State.PendingStakeByInsurance` | blackjack-core/src/game.rs:476-483 | with the same hands, pending stakes differ exactly by the insurance |
| `Decks.Deck.constructor` | blackjack-core/src/card/deck.rs:14-18 | a new deck holds one of each card |
| `Decks.Deck.Count` | blackjack-core/src/card/deck.rs:27-29 | a count fits a u8 |
| `Decks.Deck.Times` | blackjack-core/src/card/deck.rs:19-26 | every count is multiplied by n, given no count passes 255 |
| `Decks.Deck.Add` | blackjack-core/src/card/deck.rs:30-34 | adds one of that card and no other; at 255 it fails with TooManyCards and changes nothing |
| `Decks.Deck.Remove` | blackjack-core/src/card/deck.rs:35-39 | removes one of that card and no other; at 0 it fails with NotEnoughCards and changes nothing |
| `Decks.AddThenRemove` | blackjack-core/src/card/deck.rs:27-39 | a successful add followed by a remove of the same card restores every count |
| `Shoes.FullWeights` | blackjack-core/src/card.rs:598-605 | a full shoe holds the deck count of each of the 52 cards, decks·52 in all |
| `Shoes.Shoe.constructor` | blackjack-core/src/card.rs:598-605 | a new shoe is full with nothing drawn |
| `Shoes.Shoe.CardAvailable` | blackjack-core/src/card.rs:610-621 | a valid shoe always has a card to draw |
| `Shoes.Shoe.DrawCard` | blackjack-core/src/card.rs:610-621 | the drawn card is the picked ordinal; one copy fewer is left and one more drawn, so drawn + left stays decks·52, and drawing the last card refills the shoe |
| `Shoes.Shoe.NeedsShuffle` | blackjack-core/src/card.rs:625-628 | a zero threshold always shuffles and a threshold of 1 or more never does |
| `Shoes.Shoe.Shuffle` | blackjack-core/src/card.rs:636-639 | every card back and nothing drawn |
| `Stats.SaturatingAdd` | blackjack-core/src/statistics.rs:53-54 | a saturating add stops at the word maximum and is exact below it |
| `Stats.OutcomesPartition` | blackjack-core/src/statistics.rs:48-52 | each hand is exactly one of a win, a push or a loss |
| `Stats.StatusCountsBounded` | blackjack-core/src/statistics.rs:43-47 | blackjacks and busts together are at most the hands |
| `Stats.CountHands` | blackjack-core/src/statistics.rs:42-55 | the loop over the hands counts what the reference tally counts, and the saturating totals stay within a word |
| `Stats.Statistics.constructor` | blackjack-core/src/statistics.rs:22-36 | every counter starts at zero |
| `Stats.Statistics.Update` | blackjack-core/src/statistics.rs:39-61 | one turn and the hands more; the status, result and dealer counters by the counts of the hands; the totals saturating |
| `Game.CheckDoubleAllowed` | blackjack-core/src/game.rs:232-240 | a double is allowed exactly on two cards with one hand or double-after-split, and NotTwoCards is reported first |
| `Game.CheckSplitAllowed` | blackjack-core/src/game.rs:247-261 | NotAPair first, then SplitAcesNotAllowed for a soft pair without split aces, then MaxSplitsReached; allowed exactly otherwise |
| `Game.CheckSurrenderAllowed` | blackjack-core/src/game.rs:268-276 | a late surrender is allowed exactly on two cards when the table offers it, and NotTwoCards is reported first |
| `Game.SoftPairIsAces` | blackjack-core/src/game.rs:247-261 | a pair is soft exactly when it is a pair of aces |
| `Game.MaxSplitsCountsSplits` | blackjack-core/src/game.rs:247-261 | with a split limit, a pair may split while fewer splits than the limit have been made |
| `Game.PlaceBet` | blackjack-core/src/game.rs:281-302 | TooLow below the minimum, TooHigh above the maximum, both from Betting; otherwise one turn to deal with that bet |
| `TableRules.DefaultRules` | blackjack-core/src/rules.rs:30-43 | the default rules: minimum bet 100 and no maximum, 3:2 blackjacks, the dealer stands on soft 17, no insurance, no early but late surrender, five splits, doubling after a split and splitting aces |
| `Game.DefaultTable` | blackjack-core/src/rules.rs:30-43 | at the default table the minimum bet is 100 with no maximum, a late surrender needs only two cards, and a pair with up to five hands may split, aces too |
| `Game.SurrenderIf` | blackjack-core/src/game.rs:432-436 | a chosen early surrender changes only the hand's status |
| `Game.ChooseEarlySurrender` | blackjack-core/src/game.rs:425-463 | the round is over exactly when every player surrenders; otherwise insurance is offered exactly at an insurance table with an ace up, and the hole card is checked else |
| `Game.SurrenderChosen` | blackjack-core/src/game.rs:430-437 | exactly the chosen hands surrender and every other hand is unchanged |
| `Game.BetInsurance` | blackjack-core/src/game.rs:469-492 | each insurance bet is capped at half the hand's bet and the hole card is checked next |
| `Game.OnePlayerInsurance` | blackjack-core/src/game.rs:476-483 | an insurance bet adds exactly the capped amount to the money on the table |
| `Game.SkipFinished` | blackjack-core/src/game.rs:571-574 | pending turns not in play are popped from the back into the finished turns, in that order, until one in play is on top; every pending turn above the kept ones is out of play |
| `Game.NextTurnOrDealer` | blackjack-core/src/game.rs:569-601 | the last pending turn in play is played next, with the turns below it still pending and every turn above it out of play; the hole card is revealed exactly when no pending turn is in play, and the dealer stands then when no finished hand stood; the finished turns so far are kept in front |
| `Game.NextPlayerOrDealer` | blackjack-core/src/game.rs:559-603 | while one of the current turn's hands from the current one on is in play, that turn goes on with the same hands and nothing else changes; otherwise it is appended to the finished turns and play moves to an earlier pending turn or the dealer |
| `Game.SkipFinishedKeepsPhase` | blackjack-core/src/game.rs:571-574 | skipping keeps the pending turns dealt and the finished turns finished |
| `Game.SkipFinishedStake` | blackjack-core/src/game.rs:571-574 | skipping keeps the money on the table |
| `Game.NextTurnOrDealerWellFormed` | blackjack-core/src/game.rs:569-601 | moving to the next turn or the dealer gives a well-formed state |
| `Game.NextTurnOrDealerStake` | blackjack-core/src/game.rs:569-601 | moving to the next turn or the dealer keeps the money on the table |
| `Game.NextPlayerOrDealerWellFormed` | blackjack-core/src/game.rs:552-604 | continuing the player phase gives a well-formed state |
| `Game.NextPlayerOrDealerStake` | blackjack-core/src/game.rs:552-604 | continuing the player phase keeps the money on the table |
| `Game.ReplaceCurrentStep` | blackjack-core/src/game.rs:552-604 | continuing after the current hand changed moves the stake by the change of its bet and keeps the state well formed |
| `Game.StandStep` | blackjack-core/src/game.rs:731-740 | standing keeps the state well formed and the stake unchanged |
| `Game.SurrenderStep` | blackjack-core/src/game.rs:820-829 | surrendering keeps the state well formed and the stake unchanged |
| `Game.HitStep` | blackjack-core/src/game.rs:718-727 | hitting keeps the state well formed and the stake unchanged |
| `Game.DoubleStep` | blackjack-core/src/game.rs:744-753 | doubling keeps the state well formed and adds one bet to the stake |
| `Game.FirstSplitCardStep` | blackjack-core/src/game.rs:780-800 | the first split card keeps the state well formed and the stake unchanged |
| `Game.SecondSplitCardStep` | blackjack-core/src/game.rs:805-816 | the second split card keeps the state well formed and the stake unchanged |
| `Game.FirstPlayerCardStep` | blackjack-core/src/game.rs:306-331 | dealing a first card moves one bet into one one-card turn, keeping the stake |
| `Game.SecondPlayerCardStep` | blackjack-core/src/game.rs:353-375 | dealing a second card to one one-card hand keeps the state well formed and the stake |
| `Game.HoleCardStep` | blackjack-core/src/game.rs:382-418 | dealing the hole card keeps the state well formed and the stake |
| `Game.CurrentConsistent` | blackjack-core/src/game.rs:610-714 | in the player phase the current hand's value is the value of its cards |
| `Game.ContinuePlayerPhaseOrGoToDealer` | blackjack-core/src/game.rs:552-604 | the pop loop and its invariant give the next-player-or-dealer state |
| `Game.StartPlayerPhase` | blackjack-core/src/game.rs:521-547 | the round is over exactly when there is no player; otherwise a turn is played or the hole card revealed |
| `Game.StartPlayerPhaseWellFormed` | blackjack-core/src/game.rs:521-547 | starting the player phase gives a well-formed state |
| `Game.StartPlayerPhaseStake` | blackjack-core/src/game.rs:521-547 | starting the player phase keeps the money on the table |
| `Game.StartPlayerPhaseOrEndRound` | blackjack-core/src/game.rs:521-547 | the start of the player phase, well formed and keeping the stake |
| `Game.HoleCardDealt` | blackjack-core/src/game.rs:387-417 | below a 10 up, or with every player on blackjack, play starts; otherwise early surrender if offered, then insurance only with an ace up, then the hole-card check |
| `Game.CheckHoleCard` | blackjack-core/src/game.rs:497-516 | a dealer blackjack ends the round with every turn finished as it stands; otherwise play starts |
| `Game.DealerBlackjackFinishesHandInPlay` | blackjack-core/src/card.rs:497-503 | a hand still in play can end up in a finished turn, through the dealer blackjack at the hole-card check |
| `Game.StandOrHitKeepsPhase` | blackjack-core/src/game.rs:610-714 | from a well-formed player turn, the stand and hit states are well formed |
| `Game.TwoCardChoiceKeepsPhase` | blackjack-core/src/game.rs:610-714 | from a well-formed player turn on two cards, the double and surrender states are well formed |
| `Game.SplitChoiceKeepsPhase` | blackjack-core/src/game.rs:610-714 | from a well-formed player turn on a pair, the split state is well formed |
| `Game.ChooseAction` | blackjack-core/src/game.rs:610-714 | stand and hit are always taken; double, split and surrender exactly when their rule check passes; a refusal returns the same state; the result is well formed and keeps the stake |
| `Game.StandHand` | blackjack-core/src/game.rs:731-740 | the current hand stands and the player phase goes on |
| `Game.SurrenderHand` | blackjack-core/src/game.rs:820-829 | the current hand surrenders and the player phase goes on |
| `Game.SplitHand` | blackjack-core/src/game.rs:757-776 | the current hand keeps its first card and the new hand takes the second with the same bet; the stake grows by one bet |
| `Game.PlayDealerTurnOrEndRound` | blackjack-core/src/game.rs:833-857 | the dealer plays exactly while in play, otherwise the round is over |
| `Game.TotalBets` | blackjack-core/src/game.rs:878 | one total bet per finished turn |
| `Game.TurnWinnings` | blackjack-core/src/game.rs:879-881 | one payout per finished turn |
| `Game.TotalBetsStake` | blackjack-core/src/game.rs:873-894 | the total bets (each turn's bets plus its insurance) add up to the money on the table |
| `Game.HandOutcomes` | blackjack-core/src/game.rs:885 | each hand is recorded with its status, bet and payout |
| `Game.Outcomes` | blackjack-core/src/game.rs:885 | the statistics see every hand of every finished turn once: one outcome per hand over all the turns |
| `Game.FirstOneCard` | blackjack-core/src/game.rs:353-375 | the first turn holding one card, or the end |
| `Game.Table.constructor` | blackjack-core/src/game.rs:111-118 | a table owns the shoe, the rules and fresh statistics |
| `Game.Table.DealFirstPlayerCard` | blackjack-core/src/game.rs:306-331 | one bet becomes a one-card turn from one draw until no bet is left, then the dealer's first card is next; bets + turns stays constant |
| `Game.Table.DealFirstDealerCard` | blackjack-core/src/game.rs:335-349 | one draw gives the dealer a one-card hand with the table's soft-17 rule |
| `Game.Table.DealSecondPlayerCard` | blackjack-core/src/game.rs:353-375 | the first one-card hand gets one drawn card; with none left the hole card is next |
| `Game.Table.DealHoleCard` | blackjack-core/src/game.rs:382-418 | one draw completes the dealer's hand, then the hole-card routing |
| `Game.Table.HitHand` | blackjack-core/src/game.rs:718-727 | one draw onto the current hand, then the player phase goes on |
| `Game.Table.DoubleHand` | blackjack-core/src/game.rs:744-753 | the current hand doubles on one draw and the stake grows by its bet |
| `Game.Table.DealFirstSplitCard` | blackjack-core/src/game.rs:780-800 | one draw onto the current hand, then the second split card |
| `Game.Table.DealSecondSplitCard` | blackjack-core/src/game.rs:805-816 | one draw onto the new hand, which is deferred, then the player phase goes on |
| `Game.Table.PlayDealerTurn` | blackjack-core/src/game.rs:862-869 | one draw onto the dealer's hand, then the dealer plays on or the round is over |
| `Game.Table.EndRound` | blackjack-core/src/game.rs:873-894 | the payout holds each turn's total bet and winnings, and the statistics record the round's hands |
| `Game.Table.PayOutWinnings` | blackjack-core/src/game.rs:899-917 | the shoe is shuffled next exactly when it needs it, else betting |
| `Game.Table.ShuffleDispenser` | blackjack-core/src/game.rs:921-924 | the shoe is full again and betting is next |
| `Game.Table.Progress` | blackjack-core/src/game.rs:125-225 | every step of a round, from a well-formed state: the outcome ProgressOutcome allows, and by Stepped the exact next state for the state and the input, the picked card `FromOrdinal(pick)` drawn from the shoe by each dealing step and put where the engine deals it, the round's hands recorded in the statistics only at the end of the round, a reshuffle exactly when the shoe needs one and a full shoe after it; every other step and every refusal leaves the shoe alone |
| `Game.Table.TakeInput` | blackjack-core/src/game.rs:127-189 | the four states that wait for input, each with its exact result by Stepped: the bet, the one player's yes or no to early surrender, the insurance bet capped at half the hand's bet, the checked action; the shoe is untouched |
| `Game.Table.DealRound` | blackjack-core/src/game.rs:134-145 | the four dealing states, each drawing the picked card into the next player hand, the dealer's first card or the hole card, with the exact next state by Stepped |
| `Game.Table.ActWithoutDrawing` | blackjack-core/src/game.rs:172-210 | the hole-card check (over at once on a dealer blackjack), stand, split and surrender, each with its exact next state and the shoe untouched |
| `Game.Table.DrawForPlayer` | blackjack-core/src/game.rs:193-207 | hit, double and the two split cards, each drawing the picked card onto the hand the engine names, with the exact next state |
| `Game.Table.Settle` | blackjack-core/src/game.rs:211-223 | the dealer's play drawing the picked card, the end of the round recording its hands in the statistics and paying each turn, the payout going to the shuffle exactly when the shoe needs one, and the shuffle filling the shoe |
| `Game.Table.OnBetting` | blackjack-core/src/game.rs:127-133 | a bet goes through the bet check; anything else is refused |
| `Game.Table.OnDealFirstPlayerCards` | blackjack-core/src/game.rs:134-136 | the picked card is drawn and becomes a one-card hand for the last bet not yet dealt; when that was the last bet the dealer's first card is next; with no bet left nothing is drawn |
| `Game.Table.OnDealFirstDealerCard` | blackjack-core/src/game.rs:137-139 | the picked card is drawn and becomes the dealer's one-card hand with the table's soft-17 rule; the second player cards are next |
| `Game.Table.OnDealSecondPlayerCards` | blackjack-core/src/game.rs:140-142 | the picked card is drawn onto the first one-card hand; when none is left nothing is drawn and the hole card is next |
| `Game.Table.OnDealHoleCard` | blackjack-core/src/game.rs:143-145 | the picked card is drawn onto the dealer's hand, then the hole-card routing (early surrender, insurance or the check) |
| `Game.Table.OnOfferEarlySurrender` | blackjack-core/src/game.rs:146-158 | a yes ends the round with the one hand surrendered; a no goes to insurance exactly at an insurance table with an ace up, else to the hole-card check; nothing is drawn; anything but a choice is refused |
| `Game.Table.OnOfferInsurance` | blackjack-core/src/game.rs:159-171 | a bet is taken as the one player's insurance bet; anything else is refused |
| `Game.Table.OnCheckDealerHoleCard` | blackjack-core/src/game.rs:172-174 | a dealer blackjack ends the round with every turn finished; otherwise the player phase starts; nothing is drawn |
| `Game.Table.OnPlayPlayerTurn` | blackjack-core/src/game.rs:175-189 | an action goes through the rule checks; anything else is refused |
| `Game.Table.OnPlayerStand` | blackjack-core/src/game.rs:190-192 | the current hand stands and play moves to the next hand, player or dealer; nothing is drawn |
| `Game.Table.OnPlayerHit` | blackjack-core/src/game.rs:193-195 | the picked card is drawn onto the current hand and play moves on from it |
| `Game.Table.OnPlayerDouble` | blackjack-core/src/game.rs:196-198 | the current hand doubles its bet on the picked card, which is drawn, and play moves on |
| `Game.Table.OnPlayerSplit` | blackjack-core/src/game.rs:199-201 | the pair splits into two hands and the first split card is next; nothing is drawn |
| `Game.Table.OnDealFirstSplitCard` | blackjack-core/src/game.rs:202-204 | the picked card is drawn onto the current hand of the split; the second split card is next |
| `Game.Table.OnDealSecondSplitCard` | blackjack-core/src/game.rs:205-207 | the picked card is drawn onto the new hand, which is deferred, and play moves on |
| `Game.Table.OnPlayerSurrender` | blackjack-core/src/game.rs:208-210 | the current two-card hand surrenders and play moves on; nothing is drawn |
| `Game.Table.OnRevealHoleCard` | blackjack-core/src/game.rs:211-213 | the dealer's turn is next while the dealer's hand is in play, else the round is over; nothing is drawn |
| `Game.Table.OnPlayDealerTurn` | blackjack-core/src/game.rs:214-216 | the picked card is drawn onto the dealer's hand, then the dealer plays on or the round is over |
| `Game.Table.OnRoundOver` | blackjack-core/src/game.rs:217-219 | the statistics record the round's hands and the dealer's result, and the payout holds each turn's bets and winnings; the shoe is untouched |
| `Game.Table.OnPayout` | blackjack-core/src/game.rs:220-222 | the shuffle is next exactly when the shoe needs one, else betting, with nothing left on the table; the shoe is untouched |
| `Game.Table.OnShuffle` | blackjack-core/src/game.rs:223 | every card is back in the shoe and betting is next |
| `BasicStrategy.AdvisedBetAccepted` | blackjack-core/src/basic_strategy.rs:12-14 | the advised bet of 100 is accepted at the default table |
| `BasicStrategy.ComposedSize` | blackjack-core/src/card.rs:553-567 | a hand composed of given worths has exactly that many cards, each of one of those worths |
| `BasicStrategy.SurrenderLate` | blackjack-core/src/basic_strategy.rs:17-34 | late surrender only on 14 to 17 against a 9 or more; 14 only as a single-deck pair; against a 9 only 16 from four decks |
| `BasicStrategy.SurrenderEarlyHard` | blackjack-core/src/basic_strategy.rs:46-53 | a hard hand surrenders early exactly on 5 to 7 or 12 to 17 against an ace and on 14 to 16 against a 10 |
| `BasicStrategy.SurrenderEarlyPairTable` | blackjack-core/src/basic_strategy.rs:56-63 | the pair table surrenders only against a 10 or an ace, on keys 2, 3 and 6 to 8 |
| `BasicStrategy.SurrenderEarlyPairAsWritten` | blackjack-core/src/basic_strategy.rs:56-63 | as written, keyed on half the total: surrenders only against a 10 or an ace |
| `BasicStrategy.SurrenderEarlyPair` | blackjack-core/src/basic_strategy.rs:56-63 | keyed on the card: only against a 10 or an ace, and never with aces or tens |
| `BasicStrategy.SurrenderEarly` | blackjack-core/src/basic_strategy.rs:37-43 | with the corrected pair table (see Findings): soft non-pairs never surrender early, hard non-pairs follow the hard table, and surrender needs a 10 or an ace up |
| `BasicStrategy.MakeMoveHard` | blackjack-core/src/basic_strategy.rs:140-171 | an entry exactly for hard totals 4 to 21, never a split |
| `BasicStrategy.MakeMoveSoftAsWritten` | blackjack-core/src/basic_strategy.rs:173-195 | as written, an entry exactly for soft totals 13 to 21, never a split |
| `BasicStrategy.MakeMoveSoft` | blackjack-core/src/basic_strategy.rs:173-195 | an entry exactly for soft totals 12 to 21, never a split, and as written from 13 up |
| `BasicStrategy.PairTable` | blackjack-core/src/basic_strategy.rs:197-228 | an entry exactly for keys 2 to 11; tens stand and aces split |
| `BasicStrategy.MakeMoveSplittableAsWritten` | blackjack-core/src/basic_strategy.rs:197-228 | as written, keyed on half the total: an entry exactly for totals 4 to 23 |
| `BasicStrategy.MakeMoveSplittable` | blackjack-core/src/basic_strategy.rs:197-228 | keyed on the card: every pair has an entry, aces split and tens stand |
| `BasicStrategy.PairTotal` | blackjack-core/src/basic_strategy.rs:197-228 | a pair of aces is a soft 12 and any other pair is twice its worth, hard |
| `BasicStrategy.PairKeysAgree` | blackjack-core/src/basic_strategy.rs:197-228 | on every pair but aces, keying on the card and on half the total give the same advice and the same early surrender |
| `BasicStrategy.Resolve` | blackjack-core/src/basic_strategy.rs:95-136 | double only when the double check passes, surrender only when the surrender check passes, split only from a split preference |
| `BasicStrategy.PlayHand` | blackjack-core/src/basic_strategy.rs:85-138 | with the corrected soft and pair tables (see Findings): the advisor proposes double, surrender or split only when the engine's rule check for it passes |
| `BasicStrategy.DealtTotals` | blackjack-core/src/basic_strategy.rs:140-195 | a dealt hand totals at least 4, and at least 12 when soft |
| `BasicStrategy.AdviceAccepted` | blackjack-core/src/basic_strategy.rs:85-138 | with the corrected soft and pair tables (see Findings): in every player turn the engine can produce, the advisor has advice and the engine accepts it; the code as written panics on a soft 12 |
| `BasicStrategy.AcePairValue` | blackjack-core/src/basic_strategy.rs:197-228 | the pair of aces used below is a consistent soft 12 in play |
| `BasicStrategy.SoftTwelveHasNoEntry` | blackjack-core/src/basic_strategy.rs:173-195 | a pair of aces where aces may not split reaches the soft table as written with no entry; the completed table hits |
| `BasicStrategy.AcePairLookedUpAsSixes` | blackjack-core/src/basic_strategy.rs:197-228 | as written, aces against a 7 are looked up as sixes and hit; keyed on the card they split |
| `BasicStrategy.AceKeyUnreachable` | blackjack-core/src/basic_strategy.rs:197-228 | no consistent pair has half its total equal to 11, so the aces entry is never used as written |
| `BasicStrategy.AcePairSurrendersEarly` | blackjack-core/src/basic_strategy.rs:56-63 | as written, aces against an ace surrender early as sixes do; keyed on the card they do not |
| `LegacyCards.LegacyDealerStatus` | src/card.rs:218-224 | the older game's order of the dealer's status cases gives the same status as the core's |
| `LegacyCards.LegacyDealerHand.constructor` | src/card.rs:178-183 | a dealer hand of one card, valued as that card, in play |
| `LegacyCards.LegacyDealerHand.AddCard` | src/card.rs:204-225 | the card is appended, the value added, the status recomputed; the value stays the value of the cards |
| `LegacyCards.LegacyDealerHand.Showing` | src/card.rs:186-188 | the up card's worth, between 2 and 11 |
| `LegacyCards.LegacyPlayerHand.constructor` | src/card.rs:258-263 | a hand of one card with the bet, no splits and no winnings |
| `LegacyCards.LegacyPlayerHand.AddCard` | src/card.rs:351-373 | bust from 22, blackjack on a two-card 21, stood on any other 21, in play below; bet, splits and winnings kept |
| `LegacyCards.LegacyPlayerHand.Stand` | src/card.rs:266-268 | only the status changes, to stood |
| `LegacyCards.LegacyPlayerHand.Double` | src/card.rs:273-279 | the bet doubles, one card is added, and the hand is never left in play |
| `LegacyCards.LegacyPlayerHand.Split` | src/card.rs:283-293 | this hand keeps its first card, valued alone; a fresh hand takes the second with the same bet and one split more |
| `LegacyCards.LegacyPlayerHand.Surrender` | src/card.rs:296-298 | only the status changes, to surrendered |
| `LegacyCards.LegacyPlayerHand.IsPair` | src/card.rs:302-304 | a pair is two cards of equal rank, so of equal worth |
| `LegacyCards.LegacyPlayerHand.ComposedOf` | src/card.rs:309-312 | on two cards adding up to the two worths, true exactly when the hand is made of them |
| `LegacyCards.LegacyPlayerHand.CalculateWinnings` | src/card.rs:316-346 | the stored winnings follow the core's case table, six_to_five choosing 6:5 over 3:2 |
| `LegacyCards.LegacyShoe.constructor` | src/card.rs:408-412 | every card count starts at the deck count |
| `LegacyCards.LegacyShoe.DrawCard` | src/card.rs:417-428 | the picked card's count drops by one and the cards left by one; drawing the last card refills the shoe |
| `LegacyCards.LegacyShoe.NeedsShuffle` | src/card.rs:431-436 | a zero threshold always shuffles; a full shoe shuffles only then |
| `LegacyCards.LegacyShoe.Shuffle` | src/card.rs:439-442 | every count back at the deck count |
| `LegacyStats.LegacyStatistics.constructor` | src/statistics.rs:20-33 | every counter starts at zero |
| `LegacyStats.LegacyStatistics.Update` | src/statistics.rs:35-46 | one turn and the hands more; wins + pushes + losses grows by the hands; bets, blackjacks and busts by their counts; the dealer counters together by at most one |
| `LegacyBasic.LegacyBasicStrategy.constructor` | src/input/basic.rs:11-16 | the player starts with its turns and flat bet |
| `LegacyBasic.LegacyBasicStrategy.PlaceBetOrQuit` | src/input/basic.rs:20-25 | quits exactly when no turns are left; otherwise bets the flat bet and one turn fewer is left |
| `LegacyBasic.OfferInsurance` | src/input/basic.rs:35-37 | the insurance taken never exceeds the offer |
| `LegacyBasic.SurrenderEarlyHard` | src/input/basic.rs:58-65 | surrenders exactly on 5 to 7 or 12 to 17 against an ace and on 14 to 16 against a 10, except the exempt 14s (a 10 and a 4 with at most two decks, a 5 and a 9 with one deck) |
| `LegacyBasic.SurrenderEarlyPair` | src/input/basic.rs:68-75 | only against a 10 or an ace, never with aces or tens |
| `LegacyBasic.SurrenderEarly` | src/input/basic.rs:27-33 | soft non-pairs never surrender; hard non-pairs and pairs follow their tables |
| `LegacyBasic.EarlySurrenderMatchesCore` | src/input/basic.rs:58-75 | the older tables agree with the core's: hard with the exemption for the 14s, pairs exactly |
| `LegacyBasic.PreferredAction.Resolve` | src/input/basic.rs:90-100 | double only if allowed, surrender only if allowed, split from split-or-hit only if allowed; each conditional preference falls back to its second choice exactly when the first is not allowed |
| `LegacyBasic.MakeMoveHard` | src/input/basic.rs:103-120 | an entry exactly for hard totals 4 to 21, never a split, surrender only on 15 or 16 against a 9 or more |
| `LegacyBasic.MakeMoveSoft` | src/input/basic.rs:122-133 | an entry exactly for soft totals 13 to 21, never a split or a surrender |
| `LegacyBasic.MakeMovePair` | src/input/basic.rs:135-149 | keyed on the first card's worth: aces and eights split, tens stand, never a surrender |
| `LegacyBasic.PairTableMatchesCore` | src/input/basic.rs:135-149 | the pair table matches the core's card-keyed table, except for eights against an ace when hitting soft 17, which the core surrenders |
| `LegacyBasic.GetHandAction` | src/input/basic.rs:39-53 | double only with the chips, two cards and no split or double-after-split; surrender only at a late-surrender table on a hard non-pair; split only on a pair; aces always split |
| `LegacyBasic.AdviceTotal` | src/input/basic.rs:39-53 | every hand of two or more cards not over 21 gets an action |
| `LegacyBasic.SurrendersAfterHitting` | src/input/basic.rs:39-53 | a hard 16 of three cards against a 10 surrenders: surrender is not limited to two cards |

## Left out

- Randomness: the shoe's weighted random sample is the parameter `pick`, which must name a card with a copy left.
- The shoe's floating-point penetration is a rational threshold, `penetrationNum / penetrationDen` (`thresholdNum / thresholdDen` in the older game).
- `Shoes.Shoe.NeedsShuffle`: states the two extreme thresholds only, not every floating-point comparison.
- `LegacyCards.LegacyShoe.NeedsShuffle`: states a zero threshold and a full shoe only, not the penetration comparison for every shoe.
- The `fast_forward` option of the core table, which chains steps without stopping, is not modelled. Only single steps are.
- Chips are not modelled: `self.chips` and `BetError::CantAfford` have no field or variant behind them in the code.
  - The older game's double and split checks for chips are kept as the parameter `chips`.
  - The older game's table loop, which would refuse a split without chips, is not part of this model.
- Display, printing and the f64 percentages of the statistics are left out.
- Integer widths are unbounded, except where they matter:
  - the u8 hand count (`Turns.ActiveTurn.HandCount`);
  - the u8 deck counts;
  - the saturating statistics totals.
- u32 overflow of bets and payouts is not modelled, including the older game's `bet * 2` in `double`.
- The older game's round loop (src/game.rs), its input plumbing (src/input.rs, src/input/io.rs, src/io.rs) and src/main.rs are not part of this model. Neither are the GUI, the CLI, blackjack-core/src/table.rs and blackjack-cli/src/app.rs.
- Two places in blackjack-core/src/game.rs use a type where its hands are meant. The model reads them as the hands:
  - lines 359-362 call `size()` and `+=` on a `PendingTurn`; the model works on the turn's hand;
  - lines 586-587 iterate a `FinishedTurn` with `flat_map`; the model iterates `turn.hands`.
- The core's hands are values moved between states, not updated in place. The older game's hands are objects.
- `Game.Table.Progress`: specified from well-formed states. The engine deals one player per round (a bet makes one turn, and the offers take one choice each), so `WellFormed` fixes one turn before play. The conditions inside `Game.Table.Stepped` (a valid current hand, a hand still in play, one turn at the offers) are facts `WellFormed` gives, so they exclude no reachable step.
- The rules fields are read in the engine as `rules.early_surrender`, `rules.insurance` and `rules.late_surrender`. The rules record names them `offer_early_surrender`, `offer_insurance` and `offer_late_surrender`. The model reads the `offer_*` fields.
- The core statistics' `update` takes a list of player hands with winnings, but the engine passes finished turns. The model passes each hand of each finished turn as a record of its status, bet and payout (`Game.HandOutcomes`).
  - The older game's statistics take the same records.
- `surrender_late` is modelled but not called by `play_hand`, as in the code.
- `BasicStrategy.Bet` and `BasicStrategy.BetInsurance` are constants (100 and 0). The bet is covered by `BasicStrategy.AdvisedBetAccepted`; the insurance bet has no separate contract.
- `LegacyCards.LegacyPlayerHand.Split`: as in the code, the original hand's split count is not raised. Only the new hand counts one split more.
- `LegacyBasic.OfferInsurance`: stated as a bound; the code always takes 0.

## Findings

| source | as written | input that shows it | evidently intended | confidence | as-written member | corrected member |
|---|---|---|---|---|---|---|
| blackjack-core/src/basic_strategy.rs:173-195 | the soft table has no row for a soft 12 and panics | a pair of aces at a table without split aces: the split check fails and the soft 12 reaches the soft table | a soft 12 hits | not executed | `BasicStrategy.SoftTwelveHasNoEntry` | `BasicStrategy.MakeMoveSoft` |
| blackjack-core/src/basic_strategy.rs:197-228 | the pair table is keyed on `total / 2`, so a pair of aces (soft 12) is looked up as sixes and the aces row is unreachable | a pair of aces against a 7 hits instead of splitting | key the pair table on the worth of the first card | not executed | `BasicStrategy.AcePairLookedUpAsSixes` | `BasicStrategy.MakeMoveSplittable` |
| blackjack-core/src/basic_strategy.rs:56-63 | early surrender on pairs uses the same `total / 2` key, so aces are treated as sixes | a pair of aces against an ace surrenders early | aces never surrender | not executed | `BasicStrategy.AcePairSurrendersEarly` | `BasicStrategy.SurrenderEarlyPair` |
