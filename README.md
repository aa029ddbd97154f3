# Colossi rules engine: a verified Dafny model

This project models the server-side rules engine of the Colossi online card game in Dafny. Several
players share one game. They join, ready up, and then alternate between two phases:

- **Handbuilding:** players prepare cards face-down at one of three environments.
- **Skirmish:** once eight or more cards are prepared at an environment, a player may start a
  skirmish there. Players then play cards, take items, or pass until everyone has passed or run
  out of cards.

The cards in play are scored and the winner earns a skirmish win. The first player to reach the
target (2 in a quick game, 3 otherwise) wins the game.

The model has three layers, one per source component.

- **Card rules** (`cardrules.dfy`, module `CardRules`). This covers:
  - the effective-power calculation: the "?" power of Channel Power, ±2 per Water card, the +3
    Acolyte majority bonus, and the clamp at 0;
  - the legality check: Fire blocks Beast, Badlands bans Fire, Desert bans Water;
  - drawing, the hand limits, the prepared-card total and the threshold of 8;
  - type filters and the hand sorter.
- **Static data and the deck factory** (`carddata.dfy`, `images.dfy`):
  - the player-card, environment and item tables, copied row by row;
  - the colour palette;
  - the deck constructors;
  - the image-path builders;
  - the Fisher–Yates shuffle, as an imperative swap loop over an array driven by a random-index
    oracle.
- **The engine** (`engine.dfy`, class `Engine.GameEngine`). The class holds the game state in a
  field `gameState` and keeps an appended log `events` of what it emitted. Each source method
  has an imperative method that makes the source's updates in the source's order, including the
  `forEach` loops over players, which become `while` loops with invariants.

Every engine method is proved against a function in `steps.dfy` (module `Steps`). That function
maps the old state to the new state, the events emitted and the error returned. Facts about
these functions are proved in three files:

- `behaviour.dfy`: what each operation rejects, with which error, and what a success does.
- `invariants.dfy`: the state invariant `Zones.Valid`, kept by every operation. Among other
  things, it keeps the current index in range while there are players. It also keeps every hand
  within `validateHandLimit`: at most 3 cards while handbuilding and at most 10 in a skirmish,
  with no cards for a player who has passed.
- `conservation.dfy`: no operation creates or destroys a card of a player who stays in the game.
  Cards only move between that player's hand, deck, discard pile, prepared lists and in-play
  lists.

The public engine methods also state `Valid()` and `Conserves` directly in their postconditions.
`types.dfy` holds the datatypes, `zones.dfy` the zone bookkeeping and `scoring.dfy` skirmish
scoring.

Outside inputs become parameters:

- Each call to `Math.random` in a shuffle becomes the oracle `random: nat -> nat`. The index
  swapped at step `i` is `random(i) % (i + 1)`, so it always lies in `0..i`.
- Each `uuidv4()` becomes an id oracle `newId: nat -> string` (row index to id), or a
  `freshGameId` string.
- Dates and timestamps are dropped.

### Source behaviours the model keeps

- **Full ties:** a tie in both power and cards in play still has a winner, the first such player
  in seating order. This is because the sort is stable and the first entry is taken.
- **Hallowed Ground:** it restricts nothing.
- **Player colours:** a joining player's colour is `PLAYER_COLORS[number of seated players]`. A
  colour therefore repeats after a player leaves, and a seat past the fourth has no colour
  (`None`).
- **DISCARD_TO_HAND_LIMIT:** it has no phase check. It keeps its discards when it returns
  HAND_LIMIT_EXCEEDED. Its limit is 3 in handbuilding and 10 in every other phase.
- **PASS and INITIATE_SKIRMISH:** neither checks whose turn it is. PASS discards the passing
  player's whole hand.
- **Constructor:** it deals the last three items of the shuffled item deck to the three starting
  environments. It then also slices three more items off the end, so the item deck loses six.
- **Cleanup:** only when the environment deck is not empty is the environment replaced, given at
  most one item from the front of the item deck, and its prepared table re-keyed.
- **INITIATE_SKIRMISH with an unknown environment id:** the source computes the total of an
  undefined table and fails with a TypeError. The model excludes this case by a precondition,
  `Steps.InitiateDefined`, which `Engine.GameEngine.ProcessAction` carries as
  `Steps.ProcessDefined`.
- **PREPARE_CARD:** the source pushes onto `preparedCards[env][player]` without creating it. The
  model's `Steps.AppendPrepared` creates a missing list. In every valid state that list already
  exists (`Zones.PreparedKeysMatch`), so the two agree on all reachable states.

## Model

| member | source | states |
|---|---|---|
| CardRules.CardsByType | src/shared/utils/cards.ts:132-137 | the result holds only cards of the type, and every card of the type from the input with its multiplicity |
| CardRules.HasCardTypeIffCount | src/shared/utils/cards.ts:139-145 | `hasCardType` holds exactly when `countCardsByType` is positive |
| CardRules.CountAppend | src/shared/utils/cards.ts:143-145 | counting cards of a type distributes over concatenating card lists |
| CardRules.MaxCount | src/shared/utils/cards.ts:35-37 | the largest list length, attained by some list and at least every length; none (JavaScript's -Infinity) exactly for no lists |
| CardRules.CalculateCardPower | src/shared/utils/cards.ts:21-75 | effective power is never negative |
| CardRules.WaterEffect | src/shared/utils/cards.ts:48-56 | with w Water cards in play, an Electric card's power is max(0, base + 2w) and a Fire card's is max(0, base - 2w) |
| CardRules.PlainCardPower | src/shared/utils/cards.ts:21-74 | a numbered Beast, Colossus, Divine Gift or Water card scores its printed power, clamped at 0 |
| CardRules.WaterIgnoresOtherTypes | src/shared/utils/cards.ts:48-56 | a card that is neither Electric nor Fire has the same power whatever cards are in play |
| CardRules.WaterMonotone | src/shared/utils/cards.ts:48-56 | more Water in play never raises a Fire card and never lowers an Electric card |
| CardRules.AcolyteBonus | src/shared/utils/cards.ts:58-71 | an Acolyte gets +3 exactly when its owner has strictly more Acolytes than every opponent; a tie with any opponent denies it; with no opponents it always applies |
| CardRules.DynamicBase | src/shared/utils/cards.ts:28-43 | a "?" card's base is the largest opponent in-play count for Channel Power (undefined with no opponents) and 0 for any other title |
| CardRules.ChannelPowerValue | src/shared/utils/cards.ts:28-74 | an unmodified Channel Power scores the largest opponent in-play count, and 0 when there are no opponents (-Infinity clamped) |
| CardRules.ThreeWatersQuenchFlame | src/shared/utils/cards.ts:45-74 | three Water cards bring a power-6 Fire card to exactly 0, not below |
| CardRules.AcolyteMajorityScoresFive | src/shared/utils/cards.ts:58-74 | a power-2 Acolyte whose owner has 2 Acolytes against an opponent's 1 scores 5 |
| CardRules.TotalPlayerPower | src/shared/utils/cards.ts:112-130 | a player's total power is non-negative and 0 with no cards |
| CardRules.PowerSum | src/shared/utils/cards.ts:118-129 | the reduce over the cards is non-negative and 0 for no cards |
| CardRules.PowerSumBoundsEachCard | src/shared/utils/cards.ts:112-130 | the total is at least the power of each card in it |
| CardRules.CanPlayCardExactly | src/shared/utils/cards.ts:77-110 | a card is playable exactly when it is not a Beast with Fire in play, not Fire at Badlands and not Water at Desert |
| CardRules.HallowedGroundIsUnrestricted | src/shared/utils/cards.ts:96-109 | at Hallowed Ground only the Fire-blocks-Beast rule applies |
| CardRules.DrawCards | src/shared/utils/cards.ts:12-19 | drawn followed by remaining is the deck, and min(count, deck size) cards are drawn |
| CardRules.HandLimitsAgree | src/shared/utils/cards.ts:188-195 | `validateHandLimit` is at most 3 in handbuilding and 10 in skirmish, matching the engine's limit, and accepts every hand in setup and finished |
| CardRules.SumLengthsRemove | src/shared/utils/cards.ts:197-204 | the prepared total does not depend on the order the players' lists are visited |
| CardRules.SumLengthsUpdate | src/shared/utils/cards.ts:197-204 | replacing one player's list changes the total by the difference in its length |
| CardRules.SumLengthsOfEmptyLists | src/shared/utils/cards.ts:197-204 | a table of empty lists totals 0 |
| CardRules.GetTotalPreparedCards | src/shared/utils/cards.ts:197-204 | the loop returns the sum of the lengths of every player's prepared list |
| CardRules.CanInitiateSkirmish | src/shared/utils/cards.ts:206-210 | true exactly when the prepared total is at least 8 |
| CardRules.SortHandByType | src/shared/utils/cards.ts:164-186 | a permutation of the hand, ordered by the fixed type order and then by title |
| CardRules.SortedGroupsByType | src/shared/utils/cards.ts:165-181 | in a sorted hand, every card of an earlier type comes before every card of a later type |
| Images.ToLower | src/shared/utils/cards.ts:214 | lower-casing keeps the length, maps each character, and leaves no upper-case letter |
| Images.CollapseRemovesWhitespace | src/shared/utils/cards.ts:214 | replacing whitespace runs leaves no whitespace and never lengthens the text |
| Images.CollapseKeepsPlainText | src/shared/utils/cards.ts:214 | text without whitespace is unchanged |
| Images.CollapseOfRunIsOneDash | src/shared/utils/cards.ts:214 | a whole run of whitespace becomes exactly one dash |
| Images.CollapseTwoWords | src/shared/utils/cards.ts:214 | two words separated by a space become the words joined by a dash |
| Images.SlugOfChannelPower | src/shared/data/cards.ts:499 | the Channel Power image name is "channel-power" |
| Images.ImagePathShape | src/shared/data/cards.ts:528-531 | an image path is the folder, a whitespace-free name no longer than the title, then ".png"; a title without whitespace is just lower-cased |
| Images.NatToString | src/shared/game/GameEngine.ts:577 | the decimal rendering is non-empty, all digits, with no leading zero |
| Images.NatToStringRoundTrip | src/shared/game/GameEngine.ts:577 | parsing the rendering gives back the number |
| Images.NatToStringInjective | src/shared/game/GameEngine.ts:706 | different numbers render differently, so the error messages name the count exactly |
| CardData.PlayerCardTableLayout | src/shared/data/cards.ts:5-183 | 24 player cards: 4 Acolytes, 3 Beasts, 5 Colossi, 5 Divine Gifts, 2 Electric, 2 Fire, 3 Water, in that order |
| CardData.PlayerCardPowers | src/shared/data/cards.ts:5-183 | Channel Power is the only "?" power and Curse (-3) the only negative one; Acolytes have 2, Fire 6 and 10, Water 1, 3 and 5 |
| CardData.TableSizes | src/shared/data/cards.ts:186-489 | 19 environments and 30 items, the first 10 Perks and the other 20 Discard items |
| CardData.ItemCosts | src/shared/data/cards.ts:284-489 | every discard cost is 0, 1, 2 or "?", and only Ebenezer and Poison Pill use "?" |
| CardData.PlayerColorsDistinct | src/shared/data/cards.ts:492 | four distinct colours, black, brown, tan and white, in that order |
| CardData.JoinColor | src/shared/game/GameEngine.ts:121 | the colour of seat n is the palette's n-th entry, and there is none past the fourth seat |
| CardData.CreatePlayerDeck | src/shared/data/cards.ts:495-501 | one card per table row with title, type, power and effect copied, the row's fresh id and its image path; ids distinct for an injective id source |
| CardData.CreateEnvironmentDeck | src/shared/data/cards.ts:503-509 | one environment per row with title and description copied, fresh id and image path |
| CardData.CreateItemDeck | src/shared/data/cards.ts:511-517 | one item per row with title, kind, cost and description copied, fresh id and image path |
| CardData.Pick | src/shared/data/cards.ts:522 | the oracle's index at step i is at most i |
| CardData.SwapIsPermutation | src/shared/data/cards.ts:523 | one swap keeps the elements and their multiplicities |
| CardData.ShuffleFrom | src/shared/data/cards.ts:521-524 | the swaps from step i down to 1 keep the length |
| CardData.ShuffleFromIsPermutation | src/shared/data/cards.ts:521-524 | the swaps from step i down to 1 give a permutation |
| CardData.ShuffledIsPermutation | src/shared/data/cards.ts:519-526 | a shuffle has the input's length and elements |
| CardData.IdentityOracleKeepsOrder | src/shared/data/cards.ts:521-524 | an oracle that always picks the step's own index leaves the order as it was |
| CardData.ShuffleArray | src/shared/data/cards.ts:519-526 | the swap loop over a fresh array returns the Fisher–Yates order for the oracle, a permutation of the input, which is not changed |
| CardData.SwapStep | src/shared/data/cards.ts:523 | the in-place exchange of two array cells |
| Scoring.SlotCardsAreInPlay | src/shared/game/GameEngine.ts:761-769 | each player's in-play cards are among all the cards in play |
| Scoring.OpponentCards | src/shared/game/GameEngine.ts:762-764 | at most one list per player, and exactly one per player when the id is not seated |
| Scoring.OpponentsOfUnseated | src/shared/game/GameEngine.ts:762-764 | for an id that holds no seat, the opponents' lists are every seat's in-play list, in seating order |
| Scoring.OpponentsOfSeated | src/shared/game/GameEngine.ts:762-764 | for the player at seat k, the opponents' lists are every seat's in-play list except seat k's, in seating order |
| Scoring.CalculateScores | src/shared/game/GameEngine.ts:759-781 | one score per player in seating order, with id and name; its power is the total effective power of the player's in-play cards, judged against all cards in play and the opponents' lists; plus the number of cards in play, 0 power for no cards, and no winner flag |
| Scoring.WinnerIndex | src/shared/game/GameEngine.ts:786-792 | the first entry of the stable descending sort: no score beats it, and it beats every earlier score |
| Scoring.DetermineWinner | src/shared/game/GameEngine.ts:783-795 | none exactly for no scores; otherwise a flagged copy of one score, with maximal power and, among those, maximal cards in play |
| Scoring.MarkWinner | src/shared/game/GameEngine.ts:792-793 | the emitted scores are the same lines, with the winner's line also flagged |
| Scoring.FullTieGoesToFirst | src/shared/game/GameEngine.ts:786-795 | when all scores tie in power and cards, the first player wins |
| Scoring.Standings | src/shared/game/GameEngine.ts:878-882 | the final standings are every player's id, name and skirmishes won, in seating order |
| Steps.DiscardByIds | src/shared/game/GameEngine.ts:689-699 | discarding by ids keeps the hand and discard pile together as the same cards, appends to the old discard pile, and moves at most one card per id |
| Behaviour.NextTurnFacts | src/shared/game/GameEngine.ts:865-872 | the index becomes (i+1) mod n, the turn counter goes up by exactly 1, nothing else changes, and GAME_UPDATED is emitted |
| Behaviour.AddPlayerFacts | src/shared/game/GameEngine.ts:106-149 | GAME_FULL when full, the duplicate-id error when seated; otherwise the new player sits last and has an empty hand, a shuffled 24-card deck and the seat's colour, is not ready, has an empty prepared list everywhere, and does not start the game |
| Behaviour.RemovePlayerFacts | src/shared/game/GameEngine.ts:151-188 | unknown ids are refused; otherwise the player leaves the seating and every prepared table, the index moves back when at or after the seat and above 0, stays in range, and fewer than two players outside setup ends the game |
| Behaviour.SetPlayerReadyFacts | src/shared/game/GameEngine.ts:190-207 | records the flag; handbuilding starts exactly when this makes at least two players all ready during setup |
| Behaviour.CheckGameStartFacts | src/shared/game/GameEngine.ts:219-247 | handbuilding starts exactly in setup with at least 2 players all ready; then turn 1, index 0, each hand the first min(3, deck) cards, the rest the deck, pass flags cleared |
| Behaviour.PrepareCardRejects | src/shared/game/GameEngine.ts:290-333 | PREPARE_CARD succeeds exactly when phase, turn, both ids, card in hand and environment all check; a failure changes nothing; WRONG_PHASE, then NOT_PLAYER_TURN |
| Behaviour.ReplaceFromDeckFacts | src/shared/game/GameEngine.ts:336-344 | the hand loses the prepared card and gains the top deck card when there is one |
| Behaviour.PreparedFacts | src/shared/game/GameEngine.ts:336-344 | the card goes to the end of that player's list at that environment and no other list changes |
| Behaviour.PrepareCardFacts | src/shared/game/GameEngine.ts:335-353 | on success the card is appended to the player's prepared list, one card is drawn when the deck has one (hand size kept), other players and environments are unchanged, and the turn advances |
| Behaviour.InitiateSkirmishFacts | src/shared/game/GameEngine.ts:356-385 | no turn check; ENVIRONMENT_NOT_READY exactly when fewer than 8 cards are prepared there in all, otherwise the skirmish starts; a failure changes nothing |
| Behaviour.PickUpFacts | src/shared/game/GameEngine.ts:394-405 | prepared cards join the end of the hand, and the hand is cut to 10 from the end into the discard pile |
| Behaviour.StartSkirmishFacts | src/shared/game/GameEngine.ts:387-424 | skirmish phase at the environment; every player picks up their prepared cards (hand at most 10); every list there is emptied, other tables kept |
| Behaviour.StartSkirmishCurrentPlayer | src/shared/game/GameEngine.ts:412-416 | the initiator becomes the current player, or the index is -1 when not seated |
| Behaviour.PlayCardRejects | src/shared/game/GameEngine.ts:426-489 | PLAY_CARD succeeds exactly when all checks pass; the first failing check decides the code (WRONG_PHASE, NOT_PLAYER_TURN, INVALID_MOVE, CANNOT_PLAY_CARD); a failure changes nothing |
| Behaviour.BeastBlockedByFire | src/shared/game/GameEngine.ts:480-489 | a Beast played while Fire is in play at the active environment is refused with CANNOT_PLAY_CARD and changes nothing |
| Behaviour.PlayedFacts | src/shared/game/GameEngine.ts:491-496 | the card leaves the hand for the end of the player's in-play list, creating it if missing; no other list changes |
| Behaviour.PlayCardFacts | src/shared/game/GameEngine.ts:491-505 | on success the card moves from hand to the end of the player's in-play list, nothing else changes, and the turn advances |
| Behaviour.TakeItemRejects | src/shared/game/GameEngine.ts:508-590 | TAKE_ITEM succeeds exactly when all checks pass, all before any discard; a failure changes nothing; WRONG_PHASE, NOT_PLAYER_TURN, INSUFFICIENT_CARDS for an empty hand |
| Behaviour.DiscardNothing | src/shared/game/GameEngine.ts:573-600 | with a cost of 0 no card is discarded |
| Behaviour.TakenFacts | src/shared/game/GameEngine.ts:592-607 | the item leaves the environment's items for the end of the player's used list; other players' lists unchanged |
| Behaviour.TakeItemFacts | src/shared/game/GameEngine.ts:568-616 | a "?" cost counts as 0; cards are discarded only for a positive cost; the item moves to the used list and the turn advances |
| Behaviour.DiscardCardsFacts | src/shared/game/GameEngine.ts:689-699 | discarding by ids conserves hand plus discard pile and discards at most one card per id |
| Behaviour.PassFacts | src/shared/game/GameEngine.ts:619-667 | no turn check; refused outside skirmish, for unknown or already-passed players; otherwise the flag is set, the whole hand is discarded, and the skirmish ends exactly when all have passed or hold no cards, else the turn advances |
| Behaviour.DiscardToHandLimitFacts | src/shared/game/GameEngine.ts:669-712 | no phase check; the discards happen first and are kept; HAND_LIMIT_EXCEEDED exactly when the hand still exceeds 3 (handbuilding) or 10 (other phases) |
| Behaviour.CleanupFacts | src/shared/game/GameEngine.ts:797-837 | in-play cards go to their owners' discard piles and in-play cards and items are cleared; only with a non-empty environment deck is the environment replaced, given at most one item, and the prepared table re-keyed |
| Behaviour.CleanupKeepsWins | src/shared/game/GameEngine.ts:797-837 | cleanup keeps seating, ids and win counts |
| Behaviour.TopUpFacts | src/shared/game/GameEngine.ts:845-853 | a hand below 3 draws from the top of the deck up to 3 or until the deck is empty, keeping hand-then-deck order |
| Behaviour.StartNextRoundFacts | src/shared/game/GameEngine.ts:839-863 | back to handbuilding with no active environment, hands topped up to 3, pass flags cleared, and the turn advanced |
| Behaviour.ActiveFound | src/shared/game/GameEngine.ts:720-725 | in a valid skirmish the active environment exists |
| Behaviour.CreditedFacts | src/shared/game/GameEngine.ts:731-739 | crediting the winner adds exactly one win to that seat alone |
| Behaviour.ResolveAfterCleanup | src/shared/game/GameEngine.ts:747-756 | the game finishes exactly when the winner's count reaches the target, otherwise the next round starts |
| Behaviour.EndSkirmishFacts | src/shared/game/GameEngine.ts:720-757 | exactly one player, the one the scores pick, gains exactly one win; finished exactly when that count reaches the target, otherwise back to handbuilding |
| Behaviour.InitialStateFacts | src/shared/game/GameEngine.ts:31-66 | setup with no players; the first three environments get the last three items; the item deck loses six; target 2 for a quick game and 3 otherwise; an empty prepared table per environment |
| Behaviour.ProcessActionRejects | src/shared/game/GameEngine.ts:250-288 | unknown players and unknown action types are refused; every refusal except DISCARD_TO_HAND_LIMIT's leaves the state unchanged and emits nothing |
| Behaviour.CanPlayerActFacts | src/shared/game/GameEngine.ts:891-899 | true exactly in a playing phase for the player at the current index |
| Invariants.ValidHandsWithinLimit | src/shared/game/GameEngine.ts:394-405 | in every valid state each hand passes `validateHandLimit`: at most 3 while handbuilding, at most 10 in a skirmish, none for a player who has passed there, and none in setup |
| Invariants.EndSkirmishValid | src/shared/game/GameEngine.ts:714-757 | a skirmish ends only when every hand is empty, so the next round's top-up leaves at most 3 cards and the invariant holds |
| Invariants.InitialStateValid | src/shared/game/GameEngine.ts:31-66 | the constructed state satisfies the invariant |
| Invariants.NextTurnValid | src/shared/game/GameEngine.ts:865-872 | turn rotation keeps the invariant and lands on (i+1) mod n |
| Invariants.CheckGameStartValid | src/shared/game/GameEngine.ts:219-247 | starting handbuilding keeps the invariant |
| Invariants.AddPlayerValid | src/shared/game/GameEngine.ts:106-149 | joining keeps the invariant |
| Invariants.RemovePlayerValid | src/shared/game/GameEngine.ts:151-188 | leaving keeps the invariant, including the index range |
| Invariants.SetPlayerReadyValid | src/shared/game/GameEngine.ts:190-207 | readying keeps the invariant |
| Invariants.SetPlayerConnectionValid | src/shared/game/GameEngine.ts:209-216 | a connection change keeps the invariant |
| Invariants.PrepareCardValid | src/shared/game/GameEngine.ts:290-354 | PREPARE_CARD keeps the invariant |
| Invariants.StartSkirmishValid | src/shared/game/GameEngine.ts:387-424 | starting a skirmish keeps the invariant and the index lands on a seat |
| Invariants.InitiateSkirmishValid | src/shared/game/GameEngine.ts:356-385 | INITIATE_SKIRMISH keeps the invariant |
| Invariants.PlayCardValid | src/shared/game/GameEngine.ts:426-506 | PLAY_CARD keeps the invariant |
| Invariants.TakeItemValid | src/shared/game/GameEngine.ts:508-617 | TAKE_ITEM keeps the invariant |
| Invariants.PassValid | src/shared/game/GameEngine.ts:619-667 | PASS keeps the invariant, through skirmish resolution |
| Invariants.DiscardToHandLimitValid | src/shared/game/GameEngine.ts:669-712 | DISCARD_TO_HAND_LIMIT keeps the invariant |
| Invariants.StartNextRoundValid | src/shared/game/GameEngine.ts:839-863 | the next round keeps the invariant |
| Invariants.ProcessActionValid | src/shared/game/GameEngine.ts:250-288 | every action, successful or not, keeps the invariant |
| Conservation.NextTurnConserves | src/shared/game/GameEngine.ts:865-872 | turn rotation moves no card |
| Conservation.CheckGameStartConserves | src/shared/game/GameEngine.ts:229-240 | the opening deal only moves cards from deck to hand |
| Conservation.EndGameConserves | src/shared/game/GameEngine.ts:874-888 | ending the game moves no card |
| Conservation.AddPlayerConserves | src/shared/game/GameEngine.ts:106-149 | a join changes no other player's cards |
| Conservation.RemovePlayerConserves | src/shared/game/GameEngine.ts:151-188 | a leave changes no remaining player's cards |
| Conservation.SetPlayerReadyConserves | src/shared/game/GameEngine.ts:190-207 | readying moves no card beyond the opening deal |
| Conservation.SetPlayerConnectionConserves | src/shared/game/GameEngine.ts:209-216 | a connection change moves no card |
| Conservation.PrepareCardConserves | src/shared/game/GameEngine.ts:290-354 | a prepared card moves from hand to a prepared list, and the draw from deck to hand |
| Conservation.StartSkirmishConserves | src/shared/game/GameEngine.ts:387-424 | prepared cards move to hand and hand overflow to the discard pile, nothing is lost |
| Conservation.InitiateSkirmishConserves | src/shared/game/GameEngine.ts:356-385 | INITIATE_SKIRMISH creates and destroys no card |
| Conservation.PlayCardConserves | src/shared/game/GameEngine.ts:426-506 | a played card moves from hand to in-play |
| Conservation.TakeItemConserves | src/shared/game/GameEngine.ts:508-617 | paid cards move from hand to discard pile |
| Conservation.DiscardToHandLimitConserves | src/shared/game/GameEngine.ts:669-712 | discards move from hand to discard pile |
| Conservation.CleanupConserves | src/shared/game/GameEngine.ts:797-837 | in-play cards move to their owners' discard piles, none lost |
| Conservation.StartNextRoundConserves | src/shared/game/GameEngine.ts:839-863 | topping up moves cards from deck to hand only |
| Conservation.EndSkirmishConserves | src/shared/game/GameEngine.ts:720-757 | skirmish resolution creates and destroys no card |
| Conservation.PassConserves | src/shared/game/GameEngine.ts:619-667 | passing moves the hand to the discard pile, none lost |
| Conservation.ProcessActionConserves | src/shared/game/GameEngine.ts:250-288 | no action creates or destroys a player's card, and no action adds or removes a player |
| Engine.DiscardCardsById | src/shared/game/GameEngine.ts:689-699 | the loop over ids computes the discard specification and keeps hand plus discard pile |
| Engine.NewGameState | src/shared/game/GameEngine.ts:36-65 | the three pops and the slice build the specified initial state |
| Engine.GameEngine.constructor | src/shared/game/GameEngine.ts:31-66 | the state built from the two oracle-shuffled decks, no events, the invariant, 3 environments, 16 left in the environment deck and 24 in the item deck |
| Engine.GameEngine.CanPlayerAct | src/shared/game/GameEngine.ts:891-899 | true exactly in handbuilding or skirmish for the player at the current index |
| Engine.GameEngine.IsGameFull | src/shared/game/GameEngine.ts:901-903 | true exactly when the seats reach the maximum |
| Engine.GameEngine.AddPlayer | src/shared/game/GameEngine.ts:106-149 | performs `Steps.AddPlayer` with the shuffled fresh deck, keeps the invariant and conserves cards |
| Engine.GameEngine.RemovePlayer | src/shared/game/GameEngine.ts:151-188 | performs `Steps.RemovePlayer`, keeps the invariant and conserves remaining players' cards |
| Engine.GameEngine.SetPlayerReady | src/shared/game/GameEngine.ts:190-207 | performs `Steps.SetPlayerReady`, keeps the invariant and conserves cards |
| Engine.GameEngine.SetPlayerConnection | src/shared/game/GameEngine.ts:209-216 | performs `Steps.SetPlayerConnection`, keeps the invariant and conserves cards |
| Engine.GameEngine.CheckGameStart | src/shared/game/GameEngine.ts:219-227 | performs `Steps.CheckGameStart` |
| Engine.GameEngine.StartHandbuilding | src/shared/game/GameEngine.ts:229-247 | the per-player loop deals every opening hand as `Steps.StartHandbuilding` says |
| Engine.GameEngine.NextTurn | src/shared/game/GameEngine.ts:865-872 | performs `Steps.NextTurn` |
| Engine.GameEngine.EndGame | src/shared/game/GameEngine.ts:874-888 | finished phase and a GAME_ENDED event with the winner and standings |
| Engine.GameEngine.ProcessAction | src/shared/game/GameEngine.ts:250-288 | dispatches to the seven handlers as `Steps.ProcessAction`, keeps the invariant and conserves every player's cards |
| Engine.GameEngine.PrepareCardAction | src/shared/game/GameEngine.ts:290-354 | performs `Steps.PrepareCardAction` |
| Engine.GameEngine.InitiateSkirmishAction | src/shared/game/GameEngine.ts:356-385 | performs `Steps.InitiateSkirmishAction` |
| Engine.GameEngine.StartSkirmish | src/shared/game/GameEngine.ts:387-424 | the per-player loop picks up and trims hands as `Steps.StartSkirmish` says |
| Engine.GameEngine.PlayCardAction | src/shared/game/GameEngine.ts:426-506 | performs `Steps.PlayCardAction` |
| Engine.GameEngine.TakeItemAction | src/shared/game/GameEngine.ts:508-617 | performs `Steps.TakeItemAction` |
| Engine.GameEngine.TakeItem | src/shared/game/GameEngine.ts:592-616 | pays the discards, moves the item, emits ITEM_TAKEN and advances the turn |
| Engine.GameEngine.PassAction | src/shared/game/GameEngine.ts:619-667 | performs `Steps.PassAction` |
| Engine.GameEngine.DiscardToHandLimitAction | src/shared/game/GameEngine.ts:669-712 | performs `Steps.DiscardToHandLimitAction`, keeping the discards on HAND_LIMIT_EXCEEDED |
| Engine.GameEngine.EndSkirmish | src/shared/game/GameEngine.ts:720-757 | performs `Steps.EndSkirmish` |
| Engine.GameEngine.FinishSkirmish | src/shared/game/GameEngine.ts:738-756 | cleanup, SKIRMISH_ENDED, then the end of the game or the next round |
| Engine.GameEngine.CreditWin | src/shared/game/GameEngine.ts:731-736 | the winner's win count goes up by one |
| Engine.GameEngine.CleanupAfterSkirmish | src/shared/game/GameEngine.ts:797-837 | walks the in-play table and replaces the environment as `Steps.CleanupAfterSkirmish` says |
| Engine.GameEngine.StartNextRound | src/shared/game/GameEngine.ts:839-863 | the per-player loop tops up hands as `Steps.StartNextRound` says |

## Left out

- The constructor's default arguments (`maxPlayers = 4`, `isQuickGame = false`) are not
  modelled as defaults. `Engine.GameEngine.constructor` takes both as ordinary parameters,
  because Dafny has no default arguments.

- Event listeners (`onEvent`, `removeEventListener`) and the callbacks are not modelled. Emitted
  events are appended to the `events` log. Events carry no game id, timestamp or state snapshot.
- `createdAt`, `updatedAt` and event timestamps are dropped, because they are clock reads.
- `serialize` and `deserialize` are left out, because they are a JSON library round trip.
- `getGameState` is left out, including its shallow-copy aliasing. The model's state is a value.
- `Math.random` and `uuidv4` become oracle parameters. Uniformity of the shuffle is not stated,
  because it is a probabilistic property.
- `getCardTypeIcon` and `getCardDisplayName` are left out: an emoji lookup and an identity on the
  title.
- `getPlayerCardBackPath` is modelled (`Images.PlayerCardBackPath`) without a contract of its own,
  because it is a string template.
- Card and item effect texts are carried as data only. No effect beyond the power and legality
  rules is implemented in code.
- CardRules.SortHandByType: titles are compared by code point, not by `localeCompare`'s
  locale-aware collation.
- Images.ToLower: only the ASCII letters are lower-cased. The source's `toLowerCase` covers all of
  Unicode, but every title in the tables is ASCII.
- JavaScript numbers are doubles; the model uses unbounded integers. The turn counter, win counts
  and powers stay far below 2^53.
- Behaviour.InitiateSkirmishFacts: an environment id that is not a key of `preparedCards` is
  excluded by precondition, not modelled. The source fails there with a TypeError.
- The "scoring" phase named in the source's types is never entered by the code, so `Phase` omits
  it.
- The transport layer, HTTP/socket handlers, game registries and the React client are not part of
  this model.
