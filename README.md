# Hungarian Tarok rule engine, modelled in Dafny

This project models the rule engine of OpenSpiel's four-player Hungarian
Tarok game and proves properties of it. The whole game state is a 42-entry
`Deck` that maps each card to a location code:

- 0..3: the players' hands;
- 4..7: the won piles;
- -1: the talon;
- -2 and -3: the declarer's and the opponents' skart;
- -4: the current trick.

Around the deck sit small integer records. The game runs through six
phases in a fixed order:

1. Setup: chance deals 36 cards.
2. Bidding: the auction among the honour holders.
3. Talon: chance hands out the six talon cards by quota.
4. Skart: players discard down to nine cards.
5. Announcements: the partner call, then announce, contra and re-contra.
6. Play: nine tricks.

The model has three parts.

- **Cards** (`cards.dfy`, `card_names.dfy`). Card arithmetic, point
  values, the trick comparator `CardBeats`, Roman numerals and card names.
- **The current engine.**
  - The shared records are in `records.dfy` and `decks.dfy`.
  - Each phase is a module of pure rule functions on the `Game` value:
    `setup_rules`, `bidding_rules`, `talon_rules`, `skart_rules`,
    `announcement_rules` and `play_rules`.
  - `game_rules.dfy` holds the phase dispatch and `AdvancePhase`, together
    with the game invariant that every action keeps.
  - `tarok_state.dfy` holds the class `TarokState`. Its fields are the
    state object's records. Each method updates them in place, and its
    contract states that the new state is the rule function applied to
    the old one. The source's loops stay loops, proved against those
    functions.
  - `deal_helper.dfy` holds the `DealHelper::PostSetup` dealing loop.
  - `scoring.dfy` holds the scoring helpers.
- **The older class-per-phase engine** (`snapshot_*.dfy`). Each phase
  object owns its own copy of the deck.
  - Each module has a value datatype of the object's fields and the
    phase's step function. It also has a class whose methods update those
    fields and are proved equal to the step function.
  - Lemmas relate each step to the current engine, and exhibit where the
    two rule sets part.

C++ `%` and `/` truncate toward zero, so the trick-winner arithmetic uses
an explicit `TruncatedRemainder`. Every other division and remainder
applies only to non-negative values.

## Model

| member | source | states |
|---|---|---|
| Cards.SuitOfIndex | open_spiel/games/hungarian_tarok/card.h:17-23 | every index 0..4 names the suit whose number it is |
| Cards.RankOfIndex | open_spiel/games/hungarian_tarok/card.h:24-30 | every index 0..4 names the suit rank whose number it is |
| Cards.MakeTarok | open_spiel/games/hungarian_tarok/card.h:32-39 | tarok of rank r (1..22) is card r-1, a tarok; so Pagat is 0, XXI is 20, Skiz is 21 |
| Cards.MakeSuitCard | open_spiel/games/hungarian_tarok/card.h:40-43 | a non-tarok suit and rank give a card in 22..41 whose suit and rank are the ones given |
| Cards.CardSuit | open_spiel/games/hungarian_tarok/card.h:44-48 | a card is a tarok exactly when its index is below 22 |
| Cards.CardRank | open_spiel/games/hungarian_tarok/card.h:60 | the rank of a suit card is its offset from 22 modulo 5 |
| Cards.CardPointValue | open_spiel/games/hungarian_tarok/card.h:50-72 | every card is worth 1..5; worth 5 exactly for the three honours and the kings; a suit card is worth its rank number plus one |
| Cards.PointsSplit | open_spiel/games/hungarian_tarok/card.h:50-72 | point sums over adjacent card ranges add up |
| Cards.PlainTarokPoints | open_spiel/games/hungarian_tarok/card.h:52-57 | the taroks between Pagat and XXI are worth one point each |
| Cards.SuitPoints | open_spiel/games/hungarian_tarok/card.h:59-70 | each suit's five cards are worth 15 points |
| Cards.TotalCardPoints | open_spiel/games/hungarian_tarok/card.h:50-72 | the 42 cards are worth 94 points in all, the total the double-game rule assumes |
| Cards.WonCardsLocation | open_spiel/games/hungarian_tarok/card.h:78 | a seat's won pile has a code in 4..7 |
| Cards.WonPilesAreDistinctLocations | open_spiel/games/hungarian_tarok/card.h:73-82 | WonCardsLocationToPlayer inverts WonCardsLocation; won piles are no hand, talon, skart or trick, and two seats' piles differ |
| Cards.CardBeats | open_spiel/games/hungarian_tarok/card.cc:87-107 | a tarok beats any suit card and never loses to one; within one suit the higher index wins; a suit card never beats a card of another suit |
| Cards.CardBeatsIsStrictOrder | open_spiel/games/hungarian_tarok/card.cc:87-107 | CardBeats is irreflexive, asymmetric and transitive on cards |
| Cards.CardBeatsTotalWithinSuit | open_spiel/games/hungarian_tarok/card.cc:97-104 | of two different cards of one suit exactly one beats the other |
| CardNames.FirstFitting | open_spiel/games/hungarian_tarok/card.cc:113-120 | the numeral loop picks the largest symbol not above the remainder |
| CardNames.FittingSymbol | open_spiel/games/hungarian_tarok/card.cc:114-120 | the inner scan over the symbol table stops at the first symbol that still fits, the one FirstFitting names |
| CardNames.ToRomanNumeral | open_spiel/games/hungarian_tarok/card.cc:109-124 | the loop yields "" for n <= 0, and otherwise a numeral whose symbol values sum back to n |
| CardNames.ParseAfterSymbol | open_spiel/games/hungarian_tarok/card.cc:109-124 | reading a numeral adds the value of its leading symbol to the value of the rest |
| CardNames.SmallNumeralIsOnes | open_spiel/games/hungarian_tarok/card.cc:113-120 | a numeral for 1..3 is a non-empty run of I |
| CardNames.RomanRoundTrip | open_spiel/games/hungarian_tarok/card.cc:109-124 | reading back the numeral of any n >= 0 gives n |
| CardNames.RomanLetters | open_spiel/games/hungarian_tarok/card.cc:109-124 | numerals use only the letters X, V and I |
| CardNames.CardToString | open_spiel/games/hungarian_tarok/card.cc:126-172 | Skiz is named "Skiz"; every other tarok is the numeral of its index plus one; a suit card is its rank letter, "/" and its suit letter |
| CardNames.CardNameRoundTrip | open_spiel/games/hungarian_tarok/card.cc:126-172 | every card's name reads back to that card |
| CardNames.CardNamesAreDistinct | open_spiel/games/hungarian_tarok/card.cc:126-172 | two cards with the same name are the same card |
| CardNames.HonourNames | open_spiel/games/hungarian_tarok/card.cc:126-172 | Pagat is named "I" and XXI "XXI" |
| AnnouncementCodec.ToAction | open_spiel/games/hungarian_tarok/phases.cc:43-46 | an announcement action's id is its level times 8 plus its type, below the pass id 24 |
| AnnouncementCodec.FromAction | open_spiel/games/hungarian_tarok/phases.cc:34-41 | every id in 0..23 decodes to an action that encodes back to it |
| AnnouncementCodec.DecodeEncode | open_spiel/games/hungarian_tarok/phases.cc:34-46 | decoding an encoded action gives the action back |
| AnnouncementCodec.EncodingIsInjective | open_spiel/games/hungarian_tarok/phases.cc:43-46 | two actions with the same id are equal |
| AnnouncementCodec.AnnounceAction | open_spiel/games/hungarian_tarok/phases.cc:48-50 | announcing type t is id t, in 0..7, never the pass id |
| AnnouncementCodec.ContraAction | open_spiel/games/hungarian_tarok/phases.cc:51-53 | a contra on type t is id 8+t, in 8..15 |
| AnnouncementCodec.ReContraAction | open_spiel/games/hungarian_tarok/phases.cc:54-56 | a re-contra on type t is id 16+t, in 16..23 |
| TarokRecords.NextSeat | open_spiel/games/hungarian_tarok/phases.cc:331 | the seat after p is (p+1) mod 4, a seat other than p |
| TarokRecords.AheadFromNextSeat | open_spiel/games/hungarian_tarok/phases.cc:325-349 | counting from the next seat, the mover is reached last and every other seat is one step nearer |
| TarokRecords.AheadOfNextSeat | open_spiel/games/hungarian_tarok/phases.cc:325-349 | moving one seat on advances the distance by one, wrapping to the start after the last seat |
| TarokRecords.TypeOfIndex | open_spiel/games/hungarian_tarok/phases.h:49-52 | each index 0..7 names one announcement type |
| TarokRecords.TypeIndexRoundTrip | open_spiel/games/hungarian_tarok/phases.h:49-52 | type numbering and TypeOfIndex are inverse |
| TarokRecords.FreshAnnouncementSide | open_spiel/games/hungarian_tarok/phases.h:49-52 | a fresh side has nothing announced and every contra level 0 |
| TarokRecords.NextPhaseType | open_spiel/games/hungarian_tarok/phases.h:121-128 | each phase but Play has the next phase in declaration order as successor; Play has none |
| TarokRecords.PhaseOrderHasNoBackEdge | open_spiel/games/hungarian_tarok/phases.h:121-128 | following successors k times never returns to an earlier phase |
| TarokRecords.InitialGameData | open_spiel/games/hungarian_tarok/hungarian_tarok.cc:108-128 | a new record has every card in the talon, pagat holder -1, declarer 0, winning bid -1, no partner, every seat on the opponents' side and no tricks |
| TarokRecords.NewGame | open_spiel/games/hungarian_tarok/hungarian_tarok.h:152-159 | a new game is in Setup at card 0 with four empty hands |
| TarokRecords.DataCell.constructor | open_spiel/games/hungarian_tarok/phases.h:97-98 | the heap record holds the given value |
| TarokRecords.PhaseBase.constructor | open_spiel/games/hungarian_tarok/phases.h:97-98 | a phase takes ownership of the given record |
| TarokRecords.PhaseBase.Copy | open_spiel/games/hungarian_tarok/phases.h:100-103 | the copy constructor gives the copy a fresh record equal to the original's, and a null record stays null |
| TarokRecords.PhaseBase.Assign | open_spiel/games/hungarian_tarok/phases.h:104-111 | self-assignment changes nothing; otherwise the record is replaced by a fresh copy of the other's, or by null |
| Decks.CountIsHandSize | open_spiel/games/hungarian_tarok/hungarian_tarok.cc:232-240 | the number of cards at a location is the length of its card list |
| Decks.CardsBelow | open_spiel/games/hungarian_tarok/hungarian_tarok.cc:232-240 | the listed cards are exactly those located there, ascending |
| Decks.CountAfterMove | open_spiel/games/hungarian_tarok/hungarian_tarok.h:73-77 | moving one card changes the counts of only its old and new locations, by one each |
| Decks.HandCountsSum | open_spiel/games/hungarian_tarok/phases.cc:244-257 | when every card in a range is in a hand, the four hand counts add up to the range's size |
| Decks.CountStable | open_spiel/games/hungarian_tarok/hungarian_tarok.h:73-77 | cards outside a location do not change its count |
| Decks.EmptyLocation | open_spiel/games/hungarian_tarok/hungarian_tarok.h:73-77 | a location no card lies at has count 0 |
| Decks.CountFull | open_spiel/games/hungarian_tarok/hungarian_tarok.h:73-77 | a range whose cards all lie at one location adds its size to that count |
| SetupRules.SetupCurrentPlayer | open_spiel/games/hungarian_tarok/phases.cc:229-231 | Setup's mover is chance until the deal is done, then terminal |
| SetupRules.PlayersWithRoom | open_spiel/games/hungarian_tarok/phases.cc:233-242 | the offered seats are exactly those holding fewer than 9 cards, ascending |
| SetupRules.NewGameSetupInv | open_spiel/games/hungarian_tarok/hungarian_tarok.cc:108-128 | a new game satisfies the Setup invariant, with hand sizes counting the hands |
| SetupRules.SetupLegalActionsAreRoom | open_spiel/games/hungarian_tarok/phases.cc:233-242 | a seat is legal exactly when its hand has room; the list is ascending |
| SetupRules.SetupDealKeepsInv | open_spiel/games/hungarian_tarok/phases.cc:244-257 | a deal puts the cursor card in the chosen hand, bumps that count and the cursor, records Pagat's receiver, and keeps the invariant |
| SetupRules.SetupEndsWithFullHands | open_spiel/games/hungarian_tarok/phases.cc:259-261 | when Setup ends, each hand holds 9 cards, cards 36..41 are still in the talon, and the Pagat holder is recorded |
| BiddingRules.StartBiddingHonours | open_spiel/games/hungarian_tarok/phases.cc:274-290 | Bidding starts at seat 0 with number 4 unheld, and the honour flags are set exactly for the holders of Skiz, Pagat and XXI |
| BiddingRules.BiddingLegalActions | open_spiel/games/hungarian_tarok/phases.cc:296-302 | pass is always offered, and a bid exactly to an honour holder |
| BiddingRules.SkipPassed | open_spiel/games/hungarian_tarok/phases.cc:325-349 | the skip loop stops at the first seat after the mover that has not passed, or back at the mover |
| BiddingRules.BidImproves | open_spiel/games/hungarian_tarok/phases.cc:304-323 | a bid strictly improves (number, held), holds exactly when the mover bid before on an unheld number, and makes the mover declarer; a pass marks the mover and keeps the bid |
| BiddingRules.TurnRules | open_spiel/games/hungarian_tarok/phases.cc:325-349 | a held 0 ends the auction; a turn that passes on goes to an unpassed seat other than the mover and the standing declarer, and every seat skipped on the way has passed; when all others passed, all-passed is set and declarer and winning bid become -1 |
| BiddingRules.StartBiddingInv | open_spiel/games/hungarian_tarok/phases.cc:274-290 | Bidding starts in its invariant |
| BiddingRules.RecordMoveKeepsInv | open_spiel/games/hungarian_tarok/phases.cc:304-323 | the mover's update keeps the first-round structure, and the step is that update followed by the turn move |
| BiddingRules.NextPlayerKeepsInv | open_spiel/games/hungarian_tarok/phases.cc:325-349 | the turn move keeps the Bidding invariant |
| BiddingRules.BiddingStepKeepsInv | open_spiel/games/hungarian_tarok/phases.cc:304-349 | every legal action keeps the Bidding invariant |
| BiddingRules.HonourBound | open_spiel/games/hungarian_tarok/phases.cc:296-302 | no more seats bid than hold an honour |
| BiddingRules.FinishedAuctionHasWinner | open_spiel/games/hungarian_tarok/phases.cc:351-357 | an auction that ended without everyone passing has a declarer who bid and did not pass, and a winning number in 0..3 |
| TalonRules.TalonQuotas | open_spiel/games/hungarian_tarok/phases.cc:382-402 | the quota loop gives each seat its share |
| TalonRules.QuotasSumToSix | open_spiel/games/hungarian_tarok/phases.cc:382-402 | the quotas share out exactly the six talon cards |
| TalonRules.QuotasAreBalanced | open_spiel/games/hungarian_tarok/phases.cc:394-402 | other seats get (6-bid)/3 or one more, nearer seats first, at least one each for a bid up to 3 |
| TalonRules.QuotaNonNegative | open_spiel/games/hungarian_tarok/phases.cc:382-402 | no quota is negative; only a declarer with winning number 0 is owed nothing |
| TalonRules.TalonStart | open_spiel/games/hungarian_tarok/phases.cc:388-392 | corrected: the first receiver is a seat owed a card, and it is the seat after the declarer only when the declarer is owed nothing |
| TalonRules.AsWrittenDiffersOnlyInSolo | open_spiel/games/hungarian_tarok/phases.cc:382-409 | the start as written and the corrected start agree exactly when the winning number is not 0 |
| TalonRules.TalonCurrentPlayer | open_spiel/games/hungarian_tarok/phases.cc:411-413 | Talon's mover is chance until the six draws are done, then terminal |
| TalonRules.UntakenSlots | open_spiel/games/hungarian_tarok/phases.cc:415-424 | the legal slots are exactly the untaken ones, ascending |
| TalonRules.TakenAndUntaken | open_spiel/games/hungarian_tarok/phases.cc:415-424 | taken plus untaken slots number six |
| TalonRules.TakeOneSlot | open_spiel/games/hungarian_tarok/phases.cc:426-442 | taking a slot raises the taken count by one |
| TalonRules.StartTalonInv | open_spiel/games/hungarian_tarok/phases.cc:382-409 | after a finished Setup and auction, Talon starts in its invariant with six talon cards listed |
| TalonRules.DrawKeepsSlotsAgree | open_spiel/games/hungarian_tarok/phases.cc:426-442 | a draw moves the slot's card from the talon to the receiver and keeps slots and deck in agreement |
| TalonRules.ZeroSum | open_spiel/games/hungarian_tarok/phases.cc:426-442 | non-negative quotas summing to zero are all zero |
| TalonRules.OrderAfterDraw | open_spiel/games/hungarian_tarok/phases.cc:434-441 | after a draw, the receiver order on quotas still holds; after the sixth every quota is paid |
| TalonRules.HandsAndQuotasAfterDraw | open_spiel/games/hungarian_tarok/phases.cc:426-442 | each hand plus what its seat is still owed stays 9 plus its quota |
| TalonRules.DrawKeepsHandsAndQuotas | open_spiel/games/hungarian_tarok/phases.cc:426-442 | a draw keeps every hand plus its outstanding quota constant |
| TalonRules.DrawKeepsReceiverOrder | open_spiel/games/hungarian_tarok/phases.cc:434-441 | the receiver changes only when its quota reaches 0, and moves one seat on |
| TalonRules.TalonStepKeepsInv | open_spiel/games/hungarian_tarok/phases.cc:426-442 | every draw keeps the Talon invariant |
| TalonRules.TalonCanDraw | open_spiel/games/hungarian_tarok/phases.cc:415-424 | while Talon lasts, the untaken slots number six minus the draws, and there is at least one |
| TalonRules.TalonEndsWithQuotas | open_spiel/games/hungarian_tarok/phases.cc:444-446 | when Talon ends, each seat holds 9 cards plus its quota and every card is in a hand |
| TalonRules.StartSoloAsWritten | open_spiel/games/hungarian_tarok/phases.cc:382-409 | with winning number 0 the start as written makes the declarer, owed nothing, the receiver |
| TalonRules.SoloAsWrittenStep | open_spiel/games/hungarian_tarok/phases.cc:426-442 | in that solo every draw goes to the declarer, whose quota goes negative and never reads 0 |
| TalonRules.SoloAsWrittenEnd | open_spiel/games/hungarian_tarok/phases.cc:382-442 | as written, the solo declarer ends with 15 cards though its quota is 0 |
| SkartRules.HandSizes | open_spiel/games/hungarian_tarok/phases.cc:460-470 | the start counts each hand |
| SkartRules.SkartAsWrittenSoloStart | open_spiel/games/hungarian_tarok/phases.cc:460-470 | as written, after the quota deal of a solo the declarer discards first from a nine-card hand, drops to eight and keeps the turn |
| SkartRules.SkartAsWrittenDiffersOnlyInSolo | open_spiel/games/hungarian_tarok/phases.cc:460-470 | the Skart start as written and the corrected one agree exactly when the winning number is not 0 |
| SkartRules.SkartPile | open_spiel/games/hungarian_tarok/phases.cc:487-507 | a discard goes to the declarer's skart exactly when the discarder is the declarer, otherwise to the opponents' skart |
| SkartRules.Excess | open_spiel/games/hungarian_tarok/phases.cc:460-470 | the cards each hand holds above nine |
| SkartRules.StartSkartInv | open_spiel/games/hungarian_tarok/phases.cc:460-470 | after Talon, Skart starts in its invariant: the counted sizes agree with the deck, and the discarders follow the quota order from the declarer |
| SkartRules.DiscardKeepsDeck | open_spiel/games/hungarian_tarok/phases.cc:487-507 | a discard moves one card from the mover's hand to its skart and lowers its size by one |
| SkartRules.SkartStepKeepsInv | open_spiel/games/hungarian_tarok/phases.cc:487-507 | every discard keeps the invariant, and the mover stays a seat: the check for an empty next hand never ends the phase early |
| SkartRules.SkartEndsWithFullHands | open_spiel/games/hungarian_tarok/phases.cc:509-511 | after six discards every hand holds 9; the declarer's skart holds the winning number of cards, the opponents' skart the rest of the six |
| SkartRules.SkartCanDiscard | open_spiel/games/hungarian_tarok/phases.cc:476-485 | while Skart lasts, the mover holds more than nine cards to choose from |
| AnnouncementRules.TarokCounts | open_spiel/games/hungarian_tarok/phases.cc:526-538 | each seat's count is the number of taroks in its hand |
| AnnouncementRules.AnnounceActions | open_spiel/games/hungarian_tarok/phases.cc:575-646 | announces are offered exactly for types the side has not announced and may (Tuletroa rules, exactly 8 or 9 taroks, no Four Kings or Double Game after Volat), ascending |
| AnnouncementRules.ContraActions | open_spiel/games/hungarian_tarok/phases.cc:648-658 | contras are offered exactly on the other side's announcements at an even level up to 5, never on Eight or Nine Taroks, ascending |
| AnnouncementRules.ReContraActions | open_spiel/games/hungarian_tarok/phases.cc:660-666 | re-contras are offered exactly on own types at an odd level up to 5, ascending |
| AnnouncementRules.CalledActionsMeaning | open_spiel/games/hungarian_tarok/phases.cc:603-670 | after the call, an id is legal exactly when it is an allowed announce, contra or re-contra, or the pass |
| AnnouncementRules.CalledActionsAscending | open_spiel/games/hungarian_tarok/phases.cc:603-670 | the legal list after the call is strictly ascending, with pass last |
| AnnouncementRules.AscendingJoin | open_spiel/games/hungarian_tarok/phases.cc:603-670 | two ascending lists, the first below the second, join into an ascending list |
| AnnouncementRules.HighestTarokNotHeld | open_spiel/games/hungarian_tarok/phases.cc:672-698 | the scan from XX down finds the highest tarok not in the declarer's hand, or none when the declarer holds them all |
| AnnouncementRules.SidesFor | open_spiel/games/hungarian_tarok/phases.cc:691-697 | after the call, exactly the declarer and the partner are on the declarer side |
| AnnouncementRules.StartAnnouncementsInv | open_spiel/games/hungarian_tarok/phases.cc:526-538 | Announcements starts in its invariant with the declarer to move |
| AnnouncementRules.PartnerCallRules | open_spiel/games/hungarian_tarok/phases.cc:672-698 | a call keeps the turn with the declarer; CallSelf needs XX in hand and leaves no partner; a called partner is another hand holding the highest tarok the declarer lacks; the sides follow the call |
| AnnouncementRules.SideBudgetNonNegative | open_spiel/games/hungarian_tarok/phases.cc:700-738 | the number of declarations a side can still make is never negative |
| AnnouncementRules.DeclareSpendsBudget | open_spiel/games/hungarian_tarok/phases.cc:715-737 | each announce, contra or re-contra spends one of them |
| AnnouncementRules.AnnouncementsStep | open_spiel/games/hungarian_tarok/phases.cc:700-738 | every legal action keeps the invariant and strictly lowers a non-negative measure, so the phase ends |
| AnnouncementRules.DeclarationStep | open_spiel/games/hungarian_tarok/phases.cc:715-737 | a declaration keeps the invariant, spends exactly one unit of the two sides' combined budget, and leaves the speaker to move as the last to speak |
| PlayRules.StartPlayPhase | open_spiel/games/hungarian_tarok/phases.cc:812-820 | the declarer leads the first trick, round 0, no tricks recorded |
| PlayRules.SuitCardsBelow | open_spiel/games/hungarian_tarok/phases.cc:826-858 | lists exactly the mover's cards of a suit, ascending |
| PlayRules.PlayLegalActionsRules | open_spiel/games/hungarian_tarok/phases.cc:826-858 | a card is legal exactly when it is in the mover's hand and leads, or follows suit, or is a tarok when the suit is void, or anything when both are void; a non-empty hand always has a legal card |
| PlayRules.TruncatedRemainder | open_spiel/games/hungarian_tarok/phases.cc:884 | C++'s truncating remainder agrees with the mathematical one on non-negative operands |
| PlayRules.KeptCard | open_spiel/games/hungarian_tarok/phases.cc:878-886 | the scan keeps a position in the trick |
| PlayRules.KeptCardRules | open_spiel/games/hungarian_tarok/phases.cc:878-886 | no card of the trick beats the kept card, which follows the led suit or is a tarok, and is a tarok whenever one was played |
| PlayRules.TrickTakerIsHighest | open_spiel/games/hungarian_tarok/phases.cc:875-904 | the kept card is the highest of its suit in the trick; the highest tarok if any, else the highest of the led suit |
| PlayRules.MoveAll | open_spiel/games/hungarian_tarok/phases.cc:890-892 | the trick's cards go to the pile and no other card moves |
| PlayRules.ResolveTrick | open_spiel/games/hungarian_tarok/phases.cc:875-904 | the trick's cards go to the taker's pile, the trick and taker are recorded, the taker leads the next trick, and after the ninth round nobody moves |
| PlayRules.StartPlayInv | open_spiel/games/hungarian_tarok/phases.cc:812-820 | after Skart, Play starts in its invariant |
| PlayRules.MoveAllKeepsCount | open_spiel/games/hungarian_tarok/phases.cc:890-892 | moving the trick's cards leaves the count of every location the trick is not on |
| PlayRules.PlayStepKeepsInv | open_spiel/games/hungarian_tarok/phases.cc:860-904 | every play keeps the invariant, takes the card out of the mover's hand, and the fourth card ends the round |
| PlayRules.PlayCanMove | open_spiel/games/hungarian_tarok/phases.cc:826-858 | while Play lasts the mover has a legal card |
| PlayRules.PlayEndsAfterNineTricks | open_spiel/games/hungarian_tarok/phases.cc:906-910 | when Play ends, nine tricks and takers are recorded, nobody moves and every hand is empty |
| Scoring.CardWinnerSideFollowsSides | open_spiel/games/hungarian_tarok/scoring.h:10-15 | a card counts for the declarer exactly when it lies in the won pile of a declarer-side seat |
| Scoring.SameSideFrom | open_spiel/games/hungarian_tarok/scoring.h:17-26 | the scan reports whether every remaining card lies on the side |
| Scoring.CardSetWinnerSide | open_spiel/games/hungarian_tarok/scoring.h:17-26 | a set is won by side s exactly when every card of it lies on side s |
| Scoring.TuletroaRules | open_spiel/games/hungarian_tarok/scoring.h:80-82 | Tuletroa goes to s exactly when s won Pagat, XXI and Skiz |
| Scoring.FourKingsRules | open_spiel/games/hungarian_tarok/scoring.h:84-91 | Four Kings goes to s exactly when s won all four kings |
| Scoring.WinnersOnSideFrom | open_spiel/games/hungarian_tarok/scoring.h:28-35 | the scan reports whether every remaining trick taker sits on the side |
| Scoring.VolatWinnerSide | open_spiel/games/hungarian_tarok/scoring.h:28-35 | Volat goes to s exactly when every trick taker is on side s |
| Scoring.DeclarerCardPointsAsWritten | open_spiel/games/hungarian_tarok/scoring.h:37-46 | the sum as written, indexing the seats by location code, counts only cards in declarer-side hands |
| Scoring.AsWrittenPointsIndexOutOfRange | open_spiel/games/hungarian_tarok/scoring.h:37-46 | after Play no card is in a hand, so the as-written index is out of range |
| Scoring.SidePointsShareTheDeck | open_spiel/games/hungarian_tarok/scoring.h:37-61 | the two sides' card points add up to the deck's points |
| Scoring.DeclarerCardPoints | open_spiel/games/hungarian_tarok/scoring.h:37-46 | the loop sums the points of the declarer side's won cards, in 0..94, leaving the rest to the opponents |
| Scoring.DoubleGameRules | open_spiel/games/hungarian_tarok/scoring.h:48-61 | each side wins the double game exactly when it has more than 70 points; otherwise nobody does |
| Scoring.PagatTestIsInverted | open_spiel/games/hungarian_tarok/scoring.h:66-78 | as written the result is "not in last trick" exactly when Pagat is in the last trick, and always differs from the intended one |
| Scoring.PagatUltimoRules | open_spiel/games/hungarian_tarok/scoring.h:66-78 | corrected: "not in last trick" exactly when Pagat is absent from it; success exactly when it is there and lies in the last taker's pile |
| Scoring.PagatUltimoNeverFails | open_spiel/games/hungarian_tarok/scoring.h:66-78 | since the last trick goes to its taker, the pagat ultimo never fails |
| Scoring.SomeTrickHoldsBoth | open_spiel/games/hungarian_tarok/scoring.h:93-106 | the scan finds a trick holding both XXI and Skiz exactly when one exists |
| Scoring.XXICatchWinnerSide | open_spiel/games/hungarian_tarok/scoring.h:93-106 | XXI capture has a winner exactly when XXI and Skiz fell in one trick and lie in the same pile, whose side is the winner |
| Scoring.Pow2 | open_spiel/games/hungarian_tarok/scoring.h:132-134 | powers of two are positive |
| Scoring.ScoreMultiplier | open_spiel/games/hungarian_tarok/scoring.h:120-136 | the multiplier is 1 unannounced, else 2 to the power 1 plus the contra level |
| Scoring.AddScoresRules | open_spiel/games/hungarian_tarok/scoring.h:138-154 | unannounced, the winner gains the base; swapping the sides negates the change; a declarer announcement, never doubled, that the opponents win costs the declarer three times the base |
| Scoring.AccumulateScore | open_spiel/games/hungarian_tarok/scoring.h:138-154 | one add_scores call adds its change to the running score |
| Scoring.AccumulateDeclarerScore | open_spiel/games/hungarian_tarok/scoring.h:156-174 | the declarer score is the sum of the Tuletroa, Four Kings, XXI capture and pagat ultimo changes, the last passing the holder's side on success, the other side on failure and nobody otherwise, for whichever pagat outcome it is given |
| Scoring.PagatUltimoWinnerAsWritten | open_spiel/games/hungarian_tarok/scoring.h:164-173 | as written, pagat ultimo has no winner exactly when Pagat was played to the last trick; otherwise the winner is Pagat's holder's side exactly when the last taker's pile holds Pagat |
| Scoring.PagatScoreDiscrepancy | open_spiel/games/hungarian_tarok/scoring.h:164-173 | with nothing announced and Pagat taken in the last trick, the corrected score differs from the as-written one by five points for the holder's side |
| Scoring.CalculateScoresAsWritten | open_spiel/games/hungarian_tarok/scoring.h:108-178 | the body as written computes the declarer score with the inverted pagat test and returns no seat scores |
| Scoring.CalculateScores | open_spiel/games/hungarian_tarok/scoring.h:108-178 | corrected: each declarer-side seat gets the declarer score, each opponent its negation |
| Scoring.SeatScores | open_spiel/games/hungarian_tarok/scoring.h:108-178 | the intended result: every declarer-side seat scores the declarer score and every opponent its negation |
| Scoring.SeatScoresZeroSum | open_spiel/games/hungarian_tarok/scoring.h:108-178 | with two seats on each side the four scores sum to zero |
| Scoring.SetSizeIsCount | open_spiel/games/hungarian_tarok/scoring.h:108-178 | the set of declarer-side seats has as many members as there are such seats |
| GameRules.Returns | open_spiel/games/hungarian_tarok/phases.cc:925-936 | returns are the seat scores once Play is over, zeros otherwise |
| GameRules.PhaseDoApplyAction | open_spiel/games/hungarian_tarok/phases.cc:101-117 | a phase's action never changes the phase tag |
| GameRules.AdvancePhase | open_spiel/games/hungarian_tarok/phases.cc:194-226 | advancing starts the next phase in order |
| GameRules.AdvanceFromBidding | open_spiel/games/hungarian_tarok/phases.cc:201-209 | leaving Bidding sets the winning number to the auction's number and the full bid exactly when three seats bid |
| GameRules.NewGameInv | open_spiel/games/hungarian_tarok/hungarian_tarok.cc:108-128 | a new game satisfies the game invariant |
| GameRules.SetupDealtIsDealtDeck | open_spiel/games/hungarian_tarok/phases.cc:382-409 | the deck a finished Setup leaves is the one Talon expects: nine per hand and six in the talon |
| GameRules.SetupStep | open_spiel/games/hungarian_tarok/phases.cc:244-257 | a legal deal passes Setup's checks and keeps its invariant |
| GameRules.BiddingStep | open_spiel/games/hungarian_tarok/phases.cc:304-323 | a legal bid or pass passes Bidding's checks and keeps its invariant |
| GameRules.TalonStep | open_spiel/games/hungarian_tarok/phases.cc:426-442 | a legal draw passes Talon's checks and keeps its invariant |
| GameRules.SkartStep | open_spiel/games/hungarian_tarok/phases.cc:487-507 | a legal discard passes Skart's checks and keeps its invariant |
| GameRules.AnnouncementsPhaseStep | open_spiel/games/hungarian_tarok/phases.cc:700-738 | a legal announcements action passes the checks and keeps the invariant |
| GameRules.PlayStep | open_spiel/games/hungarian_tarok/phases.cc:860-873 | a legal card passes Play's checks and keeps its invariant |
| GameRules.PhaseStepReady | open_spiel/games/hungarian_tarok/phases.cc:101-117 | every legal action in any phase passes the checks and keeps the invariant |
| GameRules.AdvanceKeepsInv | open_spiel/games/hungarian_tarok/phases.cc:194-226 | a phase started right after the previous one ended satisfies its invariant |
| GameRules.GameStepKeepsInv | open_spiel/games/hungarian_tarok/hungarian_tarok.cc:145-150 | every legal action, with the advance that follows, keeps the game invariant |
| GameRules.NonTerminalHasMoves | open_spiel/games/hungarian_tarok/hungarian_tarok.cc:141-161 | a game that is not over has chance or a seat to move and a non-empty legal list |
| GameRules.TerminalStates | open_spiel/games/hungarian_tarok/phases.cc:137-146 | a finished game either ended in Bidding with everyone passing and zero returns, or in Play after nine tricks with every hand empty |
| TarokEngine.TarokState.constructor | open_spiel/games/hungarian_tarok/hungarian_tarok.cc:108-128 | a new state is the new game and satisfies the game invariant |
| TarokEngine.TarokState.Clone | open_spiel/games/hungarian_tarok/hungarian_tarok.cc:130-139 | the clone is a fresh object with the same records |
| TarokEngine.TarokState.PlayerHand | open_spiel/games/hungarian_tarok/hungarian_tarok.cc:232-240 | the hand lists, ascending, exactly the cards located in the player's hand |
| TarokEngine.TarokState.SetupDoApplyAction | open_spiel/games/hungarian_tarok/phases.cc:244-257 | the in-place deal is the Setup rule's deal, so it places the cursor card and counts it as SetupDealKeepsInv states |
| TarokEngine.TarokState.StartBiddingPhase | open_spiel/games/hungarian_tarok/phases.cc:274-290 | the in-place start is the Bidding rule's start: honours exactly for the holders of Skiz, Pagat and XXI (StartBiddingHonours) |
| TarokEngine.TarokState.BiddingDoApplyAction | open_spiel/games/hungarian_tarok/phases.cc:304-323 | the in-place bid or pass is the Bidding rule's, so the bid strictly improves (BidImproves) |
| TarokEngine.TarokState.SkipPassed | open_spiel/games/hungarian_tarok/phases.cc:331-335 | the skip loop stops where the skip function does: at the first unpassed seat after the mover, or back at the mover |
| TarokEngine.TarokState.BiddingNextPlayer | open_spiel/games/hungarian_tarok/phases.cc:325-349 | the in-place turn move is the Bidding rule's, with the skip loop proved against the skip function (TurnRules) |
| TarokEngine.TarokState.ShareTalon | open_spiel/games/hungarian_tarok/phases.cc:388-402 | the quota loop yields the quotas, which share out the six cards evenly (QuotasSumToSix, QuotasAreBalanced) |
| TarokEngine.TarokState.CollectTalon | open_spiel/games/hungarian_tarok/phases.cc:403-408 | the collection loop lists the talon's cards ascending |
| TarokEngine.TarokState.StartTalonPhase | open_spiel/games/hungarian_tarok/phases.cc:382-409 | the in-place start is the corrected Talon start, where the first receiver is owed a card |
| TarokEngine.TarokState.TalonDoApplyAction | open_spiel/games/hungarian_tarok/phases.cc:426-442 | the in-place draw is the Talon rule's, which keeps every hand plus its outstanding quota constant |
| TarokEngine.TarokState.CountHands | open_spiel/games/hungarian_tarok/phases.cc:460-470 | the counting loop yields, for every seat, the number of cards in its hand |
| TarokEngine.TarokState.StartSkartPhase | open_spiel/games/hungarian_tarok/phases.cc:460-470 | the in-place start is the corrected Skart start, where the first discarder holds more than nine |
| TarokEngine.TarokState.SkartDoApplyAction | open_spiel/games/hungarian_tarok/phases.cc:487-507 | the in-place discard is the Skart rule's: the card goes to the mover's skart (SkartPile) |
| TarokEngine.TarokState.CountTaroks | open_spiel/games/hungarian_tarok/phases.cc:526-538 | the counting loop yields, for every seat, the number of taroks in its hand |
| TarokEngine.TarokState.StartAnnouncementsPhase | open_spiel/games/hungarian_tarok/phases.cc:526-538 | the in-place start is the Announcements rule's start, with the declarer to move |
| TarokEngine.TarokState.AnnouncementsCallPartner | open_spiel/games/hungarian_tarok/phases.cc:672-698 | the scan from XX down and the side update are the call rule, so the partner holds the highest tarok the declarer lacks (PartnerCallRules) |
| TarokEngine.TarokState.AnnouncementsDoApplyAction | open_spiel/games/hungarian_tarok/phases.cc:700-738 | the in-place action is the Announcements rule's, which lowers the termination measure (AnnouncementsStep) |
| TarokEngine.TarokState.StartPlayPhase | open_spiel/games/hungarian_tarok/phases.cc:812-820 | the in-place start is the Play rule's: the declarer leads and no tricks are recorded |
| TarokEngine.TarokState.PlayDoApplyAction | open_spiel/games/hungarian_tarok/phases.cc:860-873 | the in-place play is the Play rule's: the card joins the trick, and the fourth card resolves it |
| TarokEngine.TarokState.ScanTrick | open_spiel/games/hungarian_tarok/phases.cc:878-886 | the scan loop's winner is the leader offset by the kept card's position, wrapped with C++'s remainder |
| TarokEngine.TarokState.MoveCards | open_spiel/games/hungarian_tarok/phases.cc:890-892 | the move loop puts every trick card in the pile |
| TarokEngine.TarokState.ResolveTrick | open_spiel/games/hungarian_tarok/phases.cc:875-904 | the in-place resolution is the trick rule's, so the taker played the highest card (TrickTakerIsHighest) |
| TarokEngine.TarokState.AdvancePhase | open_spiel/games/hungarian_tarok/phases.cc:194-226 | the in-place advance starts the next phase in order, as AdvancePhase states |
| TarokEngine.TarokState.DoApplyAction | open_spiel/games/hungarian_tarok/hungarian_tarok.cc:145-150 | the in-place action matches the game step and keeps the game invariant |
| TarokEngine.BidderCountIsNumTrue | open_spiel/games/hungarian_tarok/phases.cc:202-204 | counting bidders seat by seat gives the number of seats that bid |
| DealHelpers.DestinedTotal | open_spiel/games/hungarian_tarok/hungarian_tarok.cc:248-254 | requests from a card on number no more than the cards left, since each card names at most one hand |
| DealHelpers.DestinedWithinHand | open_spiel/games/hungarian_tarok/hungarian_tarok.cc:260-292 | when every requested card lies in its hand, a hand's requests and its earlier cards fit in its count |
| DealHelpers.PickReceiver | open_spiel/games/hungarian_tarok/hungarian_tarok.cc:274-287 | the search returns the first legal seat whose free room exceeds its outstanding requests, or -1 when none has |
| DealHelpers.SetupDeal | open_spiel/games/hungarian_tarok/hungarian_tarok.cc:289 | applying a deal puts the cursor card in the hand; the 36th deal starts Bidding |
| DealHelpers.CountRequests | open_spiel/games/hungarian_tarok/hungarian_tarok.cc:248-254 | the first loop counts the requests of each seat |
| DealHelpers.FullHandMeansInfeasible | open_spiel/games/hungarian_tarok/hungarian_tarok.cc:264-272 | a requested card whose hand is full shows some hand was asked for more than nine cards |
| DealHelpers.ReceiverExists | open_spiel/games/hungarian_tarok/hungarian_tarok.cc:274-287 | an unrequested card always has a receiver, so the "should be impossible" error is unreachable |
| DealHelpers.DealCounters | open_spiel/games/hungarian_tarok/hungarian_tarok.cc:289-291 | the counters after a deal agree with the state that dealt the card |
| DealHelpers.DealStep | open_spiel/games/hungarian_tarok/hungarian_tarok.cc:260-292 | dealing the cursor card to its requested hand, or to a hand with room, keeps the loop invariant |
| DealHelpers.ChooseReceiver | open_spiel/games/hungarian_tarok/hungarian_tarok.cc:262-287 | the receiver is the requested hand when there is one, else a hand with room beyond its outstanding requests; failing means the requests cannot be met |
| DealHelpers.DealNext | open_spiel/games/hungarian_tarok/hungarian_tarok.cc:260-292 | one pass of the loop deals the card keeping the invariant, or fails only when the requests are infeasible |
| DealHelpers.PostSetup | open_spiel/games/hungarian_tarok/hungarian_tarok.cc:242-292 | the fatal error happens exactly when some hand is asked for more than nine cards; otherwise the game is in Bidding with every requested card in its hand |
| SnapshotSetup.Receivers | open_spiel/games/hungarian_tarok/setup.h:19-26 | the offered seats are exactly those holding fewer than 9 cards, ascending |
| SnapshotSetup.StartDealingInv | open_spiel/games/hungarian_tarok/setup.h:13 | a fresh deal with empty counts starts in the invariant |
| SnapshotSetup.LegalDealKeepsInv | open_spiel/games/hungarian_tarok/setup.h:27-33 | a legal deal writes the receiver into the cursor card, counts it and keeps the invariant |
| SnapshotSetup.SetupStalls | open_spiel/games/hungarian_tarok/setup.h:19-36 | after 36 legal deals every hand is full and nothing is legal, yet the phase is not over |
| SnapshotSetup.UncheckedDealOverfills | open_spiel/games/hungarian_tarok/setup.h:27-33 | a deal is not checked for legality, so it can give a full hand a tenth card |
| SnapshotSetup.DealMatchesEngine | open_spiel/games/hungarian_tarok/setup.h:27-33 | a deal of the older class does what the current engine's deal does |
| SnapshotSetup.SetupPhase.constructor | open_spiel/games/hungarian_tarok/setup.h:13 | the object starts at card 0 with the given deck and counts |
| SnapshotSetup.SetupPhase.LegalActions | open_spiel/games/hungarian_tarok/setup.h:19-26 | the loop yields the seats with room |
| SnapshotSetup.SetupPhase.DoApplyAction | open_spiel/games/hungarian_tarok/setup.h:27-33 | the in-place deal matches the step function |
| SnapshotBidding.Honours | open_spiel/games/hungarian_tarok/bidding.cc:5-10 | the honour flags are set exactly for the holders of Skiz, Pagat and XXI |
| SnapshotBidding.AuctionLegalActions | open_spiel/games/hungarian_tarok/bidding.cc:11-17 | pass is always offered, and a bid exactly to an honour holder |
| SnapshotBidding.NextUnpassed | open_spiel/games/hungarian_tarok/bidding.cc:18-22 | the skip loop stops at the first unpassed seat from where it starts |
| SnapshotBidding.ApplyRules | open_spiel/games/hungarian_tarok/bidding.cc:18-45 | a bid improves the standing bid and makes the bidder the winner; a pass marks the passer; the turn goes to the first unpassed seat after the mover, except that reaching the winning bidder ends the auction with a winner who has not passed |
| SnapshotBidding.FirstBidHolds | open_spiel/games/hungarian_tarok/bidding.cc:33-39 | the first bid holds the standing 4, where the current engine lowers it to 3 |
| SnapshotBidding.NoFloorAtZero | open_spiel/games/hungarian_tarok/bidding.cc:33-39 | a bid over a held 0 makes the number -1 and the auction goes on |
| SnapshotBidding.LastPassHasNoNextPlayer | open_spiel/games/hungarian_tarok/bidding.cc:19-22 | when the last unpassed seat passes, the skip loop has no seat to stop at |
| SnapshotBidding.BiddingPhase.constructor | open_spiel/games/hungarian_tarok/bidding.cc:5-10 | seat 0 starts on an unheld 4; honours come from the setup deck, and the object's deck is left as it was |
| SnapshotBidding.BiddingPhase.NextPlayer | open_spiel/games/hungarian_tarok/bidding.cc:18-28 | the in-place turn move matches the turn function |
| SnapshotBidding.BiddingPhase.DoApplyAction | open_spiel/games/hungarian_tarok/bidding.cc:29-45 | the in-place action matches the step function |
| SnapshotTalon.DrawMatchesEngine | open_spiel/games/hungarian_tarok/talon.h:52-72 | a draw of the older class does what a draw of the current engine does |
| SnapshotTalon.StartOwedNothing | open_spiel/games/hungarian_tarok/talon.h:13-35 | a declarer owed nothing starts as the receiver |
| SnapshotTalon.OwedNothingStep | open_spiel/games/hungarian_tarok/talon.h:52-72 | that declarer receives every draw and stays the receiver |
| SnapshotTalon.OwedNothingEnd | open_spiel/games/hungarian_tarok/talon.h:13-72 | at the end all six talon cards are in the declarer's hand, though every other seat is owed at least two |
| SnapshotTalon.DealTalonPhase.constructor | open_spiel/games/hungarian_tarok/talon.h:13-35 | the object gets the quotas, the declarer as receiver and the talon cards ascending |
| SnapshotTalon.DealTalonPhase.LegalActions | open_spiel/games/hungarian_tarok/talon.h:41-50 | the loop yields the untaken slots ascending |
| SnapshotTalon.DealTalonPhase.DoApplyAction | open_spiel/games/hungarian_tarok/talon.h:52-72 | the in-place draw matches the step function |
| SnapshotSkart.PileFor | open_spiel/games/hungarian_tarok/skart.h:36-40 | a discard goes to the declarer's skart exactly when the discarder is the declarer |
| SnapshotSkart.StartDrainInv | open_spiel/games/hungarian_tarok/skart.h:14 | the phase starts with seat 0 to discard |
| SnapshotSkart.DrainStep | open_spiel/games/hungarian_tarok/skart.h:30-42 | every discard comes out of seat 0's hand onto seat 0's skart, and the turn never moves |
| SnapshotSkart.DrainEnd | open_spiel/games/hungarian_tarok/skart.h:30-56 | at the end seat 0 has lost six cards and the other hands are unchanged |
| SnapshotSkart.SkartPhase.constructor | open_spiel/games/hungarian_tarok/skart.h:14 | the object starts at seat 0 with nothing discarded |
| SnapshotSkart.SkartPhase.LegalActions | open_spiel/games/hungarian_tarok/skart.h:20-29 | the loop yields the mover's hand ascending |
| SnapshotSkart.SkartPhase.DoApplyAction | open_spiel/games/hungarian_tarok/skart.h:30-42 | the in-place discard matches the step function |
| SnapshotAnnouncements.AnnounceActions | open_spiel/games/hungarian_tarok/announcements.cc:40-61 | announces are offered exactly for unannounced types the side may make, with no Volat block, ascending |
| SnapshotAnnouncements.ContraActions | open_spiel/games/hungarian_tarok/announcements.cc:63-71 | contras are offered exactly on the other side's announcements at an even level up to 5, Eight and Nine Taroks included |
| SnapshotAnnouncements.ReContraActions | open_spiel/games/hungarian_tarok/announcements.cc:73-79 | re-contras are offered exactly on own types at an odd level up to 5 |
| SnapshotAnnouncements.CalledActionsMeaning | open_spiel/games/hungarian_tarok/announcements.cc:36-81 | after the call, an id is legal exactly when it is an allowed announce, contra or re-contra, or the pass |
| SnapshotAnnouncements.CalledActionsAscending | open_spiel/games/hungarian_tarok/announcements.cc:36-81 | that list is strictly ascending |
| SnapshotAnnouncements.StartTalkInv | open_spiel/games/hungarian_tarok/announcements.h:69-80 | the phase starts with sane side records |
| SnapshotAnnouncements.SpeakStep | open_spiel/games/hungarian_tarok/announcements.cc:119-134 | a declaration keeps the records sane; the speaker keeps the turn and becomes the last to speak |
| SnapshotAnnouncements.TalkStep | open_spiel/games/hungarian_tarok/announcements.cc:84-135 | every legal action keeps the invariant, and the object's own partner field stays empty |
| SnapshotAnnouncements.PartnerSpeaksForOpponents | open_spiel/games/hungarian_tarok/announcements.h:110-134 | since the private partner field is never set, the called partner's announcements land on the opponents' side |
| SnapshotAnnouncements.TarokBonusContra | open_spiel/games/hungarian_tarok/announcements.cc:63-71 | a contra on Eight Taroks is offered and leaves a doubled tarok bonus, which the current engine forbids |
| SnapshotAnnouncements.NoVolatBlock | open_spiel/games/hungarian_tarok/announcements.cc:40-61 | Four Kings stays on offer after the own Volat, which the current engine forbids |
| SnapshotAnnouncements.CallNamesAnyLocation | open_spiel/games/hungarian_tarok/announcements.cc:89-105 | the call can name a skart as partner, and it moves the turn to the seat after the declarer, where the current engine calls nobody |
| SnapshotAnnouncements.PassMatchesEngine | open_spiel/games/hungarian_tarok/announcements.cc:108-117 | a pass moves the turn and the first-round flag as the current engine's pass does |
| SnapshotAnnouncements.AnnouncementsPhase.constructor | open_spiel/games/hungarian_tarok/announcements.h:69-80 | the counting loop gives each seat its tarok count, with the declarer to move |
| SnapshotAnnouncements.AnnouncementsPhase.DoApplyAction | open_spiel/games/hungarian_tarok/announcements.cc:84-135 | the in-place action, including the scan from XX down, matches the step function |
| SnapshotPlay.LegalCardsUnfold | open_spiel/games/hungarian_tarok/play.h:22-54 | the legal cards are the follow cards, else the taroks, else the whole hand |
| SnapshotPlay.LeadsFromSeatZero | open_spiel/games/hungarian_tarok/play.h:88-89 | seat 0 leads the first trick, where the current engine lets the declarer lead |
| SnapshotPlay.StartTrickplayInv | open_spiel/games/hungarian_tarok/play.h:16 | with nine cards in each hand, play starts in the invariant |
| SnapshotPlay.PlayMatchesEngine | open_spiel/games/hungarian_tarok/play.h:55-117 | a play of the older class does to deck, turn, trick and round what the current engine does; only the engine records the trick |
| SnapshotPlay.TrickplayStep | open_spiel/games/hungarian_tarok/play.h:55-71 | every play keeps the invariant and takes the card out of the mover's hand |
| SnapshotPlay.TrickplayCanMove | open_spiel/games/hungarian_tarok/play.h:22-54 | an unfinished phase offers a legal card |
| SnapshotPlay.TrickplayEnds | open_spiel/games/hungarian_tarok/play.h:72-77 | when the phase ends, nobody moves, nine rounds are played and every hand is empty |
| SnapshotPlay.ResolveRules | open_spiel/games/hungarian_tarok/play.h:93-117 | the taker played the card no other card beats, and receives all four cards |
| SnapshotPlay.PlayPhase.constructor | open_spiel/games/hungarian_tarok/play.h:16 | the object starts at seat 0, round 0, with an empty trick |
| SnapshotPlay.PlayPhase.LegalActions | open_spiel/games/hungarian_tarok/play.h:22-54 | the three scans yield the legal cards |
| SnapshotPlay.PlayPhase.FollowScan | open_spiel/games/hungarian_tarok/play.h:25-35 | the first scan yields the hand cards that follow the led suit |
| SnapshotPlay.PlayPhase.HoldsTarok | open_spiel/games/hungarian_tarok/play.h:38-44 | the second scan reports whether the hand holds a tarok |
| SnapshotPlay.PlayPhase.FallbackScan | open_spiel/games/hungarian_tarok/play.h:45-53 | the last scan yields the taroks if any, else the whole hand |
| SnapshotPlay.PlayPhase.DoApplyAction | open_spiel/games/hungarian_tarok/play.h:55-71 | the in-place play matches the step function |
| SnapshotPlay.PlayPhase.ResolveTrick | open_spiel/games/hungarian_tarok/play.h:93-117 | the in-place scan and move match the trick resolution |
| SnapshotPlay.PlayPhase.FindTaker | open_spiel/games/hungarian_tarok/play.h:96-104 | the scan over the trick finds the seat of the taker that the trick rule names |

## Left out

- Framework plumbing is left out: game registration, `Factory`, observers and observation strings, `MaxGameLength`. The `unique_ptr` and virtual-dispatch ownership of phases is left out too. The current engine's phases are values under a phase tag. The older engine's phases are separate classes, and each phase's `NextPhase` is the next class's constructor.
- Floating point is left out. `ChanceOutcomes` probabilities are not modelled: chance is a legal action like any other. `PlayReturns` and `Returns` give integer scores instead of converting them to `double`.
- Debug rendering is left out: every `ActionToString`/`ToString`, `DeckToString` and the stream operators. `CardToString` and `ToRomanNumeral` are modelled.
- The random-play test driver in `hungarian_tarok_test.cc` is left out, along with the APIs it uses that no shown source defines.
- The double-game and volat results are modelled, but `CalculateScores` computes the double game and then ignores it. The model does not invent the base-game, solo, double-game or volat scoring the source leaves unwritten.
- `DealHelper`'s randomness is left out. Card requests are a parameter, and `LoadGame` is the state's constructor.
- Legality of actions. In the current engine, Bidding (`phases.cc:304-307`) and Announcements (`phases.cc:700-703`) abort on an action outside their legal list. Talon (`phases.cc:427-430`) and Skart (`phases.cc:488-491`) check conditions that amount to their legal lists. Setup (`phases.cc:244-257`) checks only that the action is a seat and the phase is not over, so it accepts a deal to a full hand, which grows that hand to ten. Play (`phases.cc:860-873`) checks only that the card is in the mover's hand, so it accepts a card that does not follow suit. `GameRules.PhaseDoApplyAction` requires exactly these checks (`GameRules.ActionAccepted`). The whole-game `GameRules.DoApplyAction` and `TarokEngine.TarokState.DoApplyAction` require `action in LegalActions`, so they do not model the Setup deal to a full hand or the Play card off suit that the source accepts, and their invariant holds only for legal play. A failed check is a precondition in the model, not an abort. The same holds for `SnapshotAnnouncements.AnnouncementsPhase.DoApplyAction`, which requires the partner to have a value after a call, as the check at `announcements.cc:99` demands.
- The source leaves some C++ fields indeterminate; the model makes their values constructor parameters. These are `SetupPhase`'s deck and hand sizes, and `BiddingPhase`'s deck, which its constructor never copies.
- Compile errors of the older engine are left out, among them these. `SkartPhase` has no `Clone`, and `NextPhase` constness does not match. `play.h` calls an undefined `WonCards`, which the model reads as `WonCardsLocation`. `AnnouncementsPhase` takes its record by reference, which the model reads as a value. `announcements.cc:37-38` and `announcements.cc:120-121` bind a `GameData::AnnouncementSide&` to the phase's own side type. The Setup and Bidding phases never initialise their `GamePhase` base. `announcements.h:91` builds `PlayPhase(game_data_)`, which matches no `PlayPhase` constructor (`play.h:16` takes a deck and a declarer).
- The `BiddingState` fields declared at `hungarian_tarok.h:160-168` differ from those `phases.cc` uses. The model's bidding record has the fields the bidding rules use.
- `PlayerHandLocation` and `IsPlayerHandLocation` are called (`hungarian_tarok.cc:235`, `hungarian_tarok.h:64`, `card.cc:180`, `phases.cc:678`) but not defined in the shown source. The model reads a hand location as the bare seat index, as `phases.cc:254` and `phases.cc:433` write it.
- The whole-game engine runs both corrected starts: Talon's first receiver (`TalonRules.TalonStart`, against `phases.cc:390`) and Skart's first discarder (`SkartRules.StartSkartPhase`, against `phases.cc:469`). In a solo, `GameRules.DoApplyAction`, `TarokEngine.TarokState.DoApplyAction` and `GameRules.GameStepKeepsInv` therefore describe a game that differs from the source's in these two places; the two Findings rows on `phases.cc` give the as-written halves. `GameRules.Returns` likewise uses the corrected scoring: the corrected pagat test and the seat scores `CalculateScores` is evidently meant to return.
- Scoring.PagatUltimoOutcome: corrects only the inverted flag. Its `pagat_won` test (`scoring.h:69`) compares Pagat's pile with the last taker's, and a Pagat played to the last trick always lies there, so even the corrected outcome is never `Failed` (`Scoring.PagatUltimoNeverFails`). The rule the source evidently wants is that the Pagat holder's side takes the last trick. The model keeps the comparison as written rather than guess that rule.
- SnapshotBidding.BiddingPhase.DoApplyAction: defined only while some seat has not passed. When the last seat passes, the source's skip loop never ends. `SnapshotBidding.LastPassHasNoNextPlayer` shows the case.
- SnapshotTalon.DealTalonPhase.constructor: requires at most six talon cards. More would write past the six-slot array.

## Findings

| source | as written | input that shows it | evidently intended | confidence | as-written member | corrected member |
|---|---|---|---|---|---|---|
| open_spiel/games/hungarian_tarok/phases.cc:382-442 | with winning number 0 the declarer, owed 0 cards, is the first receiver; the receiver changes only when its quota reads exactly 0 after a draw, so the declarer's quota goes -1, -2, ... and it draws all six | a solo auction (held 0): the declarer ends Talon with 15 cards, the others with 9 | the first receiver is the first seat owed a card, so each seat ends with 9 plus its quota | not executed | TalonRules.SoloAsWrittenEnd | TalonRules.TalonEndsWithQuotas |
| open_spiel/games/hungarian_tarok/phases.cc:460-470 | the Skart phase always starts with the declarer as first discarder | a solo once Talon deals by quota: the declarer holds nine, discards first, drops to eight and keeps the turn | the first discarder is the first receiver of the talon, so every hand ends Skart with nine | not executed | SkartRules.SkartAsWrittenSoloStart | SkartRules.SkartEndsWithFullHands |
| open_spiel/games/hungarian_tarok/scoring.h:37-46 | `DeclarerCardPoints` indexes `player_sides_` by the card's location code | any finished game: every card lies in a won pile (4..7), out of the array's range | look up the owner of the won pile; the model also counts both skarts for the opponents, the declarer's own discards included, since the source gives no rule for skart cards | not executed | Scoring.AsWrittenPointsIndexOutOfRange | Scoring.DeclarerCardPoints |
| open_spiel/games/hungarian_tarok/scoring.h:66-78 | `pagat_in_last_trick` is true when Pagat is NOT in the last trick | Pagat played to the last trick: the result is "not in last trick", so the declarer score misses the pagat ultimo change (`Scoring.PagatScoreDiscrepancy`) | report "not in last trick" only when Pagat was not played to it | not executed | Scoring.PagatTestIsInverted | Scoring.PagatUltimoRules |
| open_spiel/games/hungarian_tarok/scoring.h:108-178 | `CalculateScores` computes the declarer score and falls off the end without a `return` | any scored game | the declarer-side seats get the declarer score and the opponents its negation; the scores sum to zero only with two seats on each side (`SeatScoresZeroSum`), not after the declarer calls itself | not executed | Scoring.CalculateScoresAsWritten | Scoring.CalculateScores |
