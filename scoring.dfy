/** The scoring helpers of scoring.h: which side a card, a set of cards or
    the run of tricks went to, the card-point count behind the double game,
    the pagat-ultimo and XXI-capture outcomes, the announce/contra
    multiplier and the accumulation of the declarer's score. */
module Scoring {
  import opened Wrappers
  import opened Cards
  import opened TarokRecords
  import opened Decks
  import opened PlayRules

  const TotalPoints := 94
  const DoubleGameThreshold := 70
  const TuletroaScore := 1
  const FourKingsScore := 1
  const PagatUltimoScore := 5
  const XXICatchScore := 21

  /** The side whose won piles hold the card: the declarer's and the
      partner's piles count for the declarer, everything else for the
      opponents. */
  function CardWinnerSide(data: GameData, card: int): Side
    requires 0 <= card < DeckSize
  {
    if data.deck[card] == WonCardsLocation(data.declarer)
       || (data.partner.Some? && data.deck[card] == WonCardsLocation(data.partner.value))
    then Declarer
    else Opponents
  }

  /** The seats' sides agree with the declarer and the partner, as the
      partner call leaves them. */
  predicate SidesAgree(data: GameData)
  {
    && 0 <= data.declarer < NumPlayers
    && (data.partner.Some? ==> 0 <= data.partner.value < NumPlayers)
    && forall p :: 0 <= p < NumPlayers ==>
         (data.playerSides[p] == Declarer <==> p == data.declarer || (data.partner.Some? && p == data.partner.value))
  }

  /** With the sides set by the partner call, a card counts for the
      declarer exactly when it lies in the won pile of a declarer-side
      seat. */
  lemma CardWinnerSideFollowsSides(data: GameData, card: int)
    requires SidesAgree(data) && 0 <= card < DeckSize
    ensures CardWinnerSide(data, card) == Declarer <==>
      (NumPlayers <= data.deck[card] < 2 * NumPlayers &&
       data.playerSides[WonCardsLocationToPlayer(data.deck[card])] == Declarer)
  {
  }

  /** Whether the cards from index i on all lie on the given side. */
  function SameSideFrom(data: GameData, cards: seq<int>, side: Side, i: int): (all: bool)
    requires 0 <= i <= |cards|
    requires forall j :: 0 <= j < |cards| ==> 0 <= cards[j] < DeckSize
    ensures all <==> forall j :: i <= j < |cards| ==> CardWinnerSide(data, cards[j]) == side
    decreases |cards| - i
  {
    if i == |cards| then true
    else CardWinnerSide(data, cards[i]) == side && SameSideFrom(data, cards, side, i + 1)
  }

  /** The side of the first card if every card shares it, else none. */
  function CardSetWinnerSide(data: GameData, cards: seq<int>): (r: Option<Side>)
    requires |cards| > 0
    requires forall j :: 0 <= j < |cards| ==> 0 <= cards[j] < DeckSize
    ensures forall s :: r == Some(s) <==> forall j :: 0 <= j < |cards| ==> CardWinnerSide(data, cards[j]) == s
  {
    var first := CardWinnerSide(data, cards[0]);
    if SameSideFrom(data, cards, first, 0) then Some(first) else None
  }

  const TuletroaCards: seq<int> := [Pagat, XXI, Skiz]
  const FourKingsCards: seq<int> :=
    [MakeSuitCard(Hearts, King), MakeSuitCard(Diamonds, King),
     MakeSuitCard(Clubs, King), MakeSuitCard(Spades, King)]

  /** Tuletroa goes to the side that won Pagat, XXI and Skiz, if one did. */
  function TuletroaWinnerSide(data: GameData): Option<Side>
  {
    CardSetWinnerSide(data, TuletroaCards)
  }

  lemma TuletroaRules(data: GameData, s: Side)
    ensures TuletroaWinnerSide(data) == Some(s) <==>
      CardWinnerSide(data, Pagat) == s && CardWinnerSide(data, XXI) == s && CardWinnerSide(data, Skiz) == s
  {
    assert TuletroaCards[0] == Pagat && TuletroaCards[1] == XXI && TuletroaCards[2] == Skiz;
  }

  /** Four Kings goes to the side that won all four kings, if one did. */
  function FourKingsWinnerSide(data: GameData): Option<Side>
  {
    CardSetWinnerSide(data, FourKingsCards)
  }

  lemma FourKingsRules(data: GameData, s: Side)
    ensures FourKingsWinnerSide(data) == Some(s) <==>
      forall suit :: suit != Tarok ==> CardWinnerSide(data, MakeSuitCard(suit, King)) == s
  {
    if FourKingsWinnerSide(data) == Some(s) {
      forall suit | suit != Tarok
        ensures CardWinnerSide(data, MakeSuitCard(suit, King)) == s
      {
        assert MakeSuitCard(suit, King) == FourKingsCards[SuitIndex(suit)];
      }
    }
    if forall suit :: suit != Tarok ==> CardWinnerSide(data, MakeSuitCard(suit, King)) == s {
      assert FourKingsCards[0] == MakeSuitCard(Hearts, King);
      assert FourKingsCards[1] == MakeSuitCard(Diamonds, King);
      assert FourKingsCards[2] == MakeSuitCard(Clubs, King);
      assert FourKingsCards[3] == MakeSuitCard(Spades, King);
    }
  }

  /** Whether the takers of the tricks from index i on all sit on the
      given side. */
  function WinnersOnSideFrom(data: GameData, side: Side, i: int): (all: bool)
    requires 0 <= i <= |data.trickWinners|
    requires forall j :: 0 <= j < |data.trickWinners| ==> 0 <= data.trickWinners[j] < NumPlayers
    ensures all <==> forall j :: i <= j < |data.trickWinners| ==> data.playerSides[data.trickWinners[j]] == side
    decreases |data.trickWinners| - i
  {
    if i == |data.trickWinners| then true
    else data.playerSides[data.trickWinners[i]] == side && WinnersOnSideFrom(data, side, i + 1)
  }

  /** Volat goes to the side that took every trick, if one did. */
  function VolatWinnerSide(data: GameData): (r: Option<Side>)
    requires |data.trickWinners| > 0
    requires forall j :: 0 <= j < |data.trickWinners| ==> 0 <= data.trickWinners[j] < NumPlayers
    ensures forall s :: r == Some(s) <==>
      forall j :: 0 <= j < |data.trickWinners| ==> data.playerSides[data.trickWinners[j]] == s
  {
    var first := data.playerSides[data.trickWinners[0]];
    if WinnersOnSideFrom(data, first, 0) then Some(first) else None
  }

  /** DeclarerCardPoints as scoring.h:37-46 writes it indexes the seats'
      sides by each card's location; the index is in range only when
      every card lies in a hand. */
  predicate AsWrittenIndexInRange(deck: Deck)
  {
    forall c :: 0 <= c < DeckSize ==> 0 <= deck[c] < NumPlayers
  }

  /** DeclarerCardPoints as written: the points of the cards whose
      location, read as a seat, is on the declarer side. */
  function DeclarerCardPointsAsWritten(data: GameData, lo: int): (points: int)
    requires 0 <= lo <= DeckSize && AsWrittenIndexInRange(data.deck)
    ensures 0 <= points <= PointsBetween(lo, DeckSize)
    decreases DeckSize - lo
  {
    if lo == DeckSize then 0
    else
      (if data.playerSides[data.deck[lo]] == Declarer then CardPointValue(lo) else 0)
      + DeclarerCardPointsAsWritten(data, lo + 1)
  }

  /** The discrepancy: when Play is over no card lies in a hand, so the
      index DeclarerCardPoints reads is out of range for every card: a won
      pile is 4..7, a skart is -2 or -3. */
  lemma AsWrittenPointsIndexOutOfRange(g: Game)
    requires PlayInv(g) && PlayPhaseOver(g)
    ensures !AsWrittenIndexInRange(g.data.deck)
    ensures forall c :: 0 <= c < DeckSize ==> !(0 <= g.data.deck[c] < NumPlayers)
  {
    PlayEndsAfterNineTricks(g);
    assert !(0 <= g.data.deck[0] < NumPlayers);
  }

  /** The points of the cards c >= lo that went to the given side. */
  function SidePoints(data: GameData, side: Side, lo: int): (points: int)
    requires 0 <= lo <= DeckSize
    decreases DeckSize - lo
  {
    if lo == DeckSize then 0
    else
      (if CardWinnerSide(data, lo) == side then CardPointValue(lo) else 0)
      + SidePoints(data, side, lo + 1)
  }

  /** The two sides share the deck's points between them. */
  lemma {:induction false} SidePointsShareTheDeck(data: GameData, lo: int)
    requires 0 <= lo <= DeckSize
    ensures SidePoints(data, Declarer, lo) + SidePoints(data, Opponents, lo) == PointsBetween(lo, DeckSize)
    ensures 0 <= SidePoints(data, Declarer, lo) <= PointsBetween(lo, DeckSize)
    decreases DeckSize - lo
  {
    if lo < DeckSize {
      SidePointsShareTheDeck(data, lo + 1);
    }
  }

  /** The points the declarer side won, by the same scan as the source
      but reading each card's side from the pile it lies in. */
  method DeclarerCardPoints(data: GameData) returns (points: int)
    ensures points == SidePoints(data, Declarer, 0)
    ensures 0 <= points <= TotalPoints
    ensures TotalPoints - points == SidePoints(data, Opponents, 0)
  {
    points := 0;
    var card := 0;
    while card < DeckSize
      invariant 0 <= card <= DeckSize
      invariant points + SidePoints(data, Declarer, card) == SidePoints(data, Declarer, 0)
    {
      if CardWinnerSide(data, card) == Declarer {
        points := points + CardPointValue(card);
      }
      card := card + 1;
    }
    SidePointsShareTheDeck(data, 0);
    TotalCardPoints();
  }

  /** Double game: the side with more than 70 of the 94 points. */
  function DoubleGameWinnerSide(data: GameData): (r: Option<Side>)
  {
    var declarerPoints := SidePoints(data, Declarer, 0);
    var opponentsPoints := TotalPoints - declarerPoints;
    if declarerPoints > DoubleGameThreshold then Some(Declarer)
    else if opponentsPoints > DoubleGameThreshold then Some(Opponents)
    else None
  }

  /** Each side wins the double game exactly when it won more than 70
      points, and at most one side can. */
  lemma DoubleGameRules(data: GameData)
    ensures DoubleGameWinnerSide(data) == Some(Declarer) <==> SidePoints(data, Declarer, 0) > DoubleGameThreshold
    ensures DoubleGameWinnerSide(data) == Some(Opponents) <==> SidePoints(data, Opponents, 0) > DoubleGameThreshold
    ensures DoubleGameWinnerSide(data) == None <==>
      SidePoints(data, Declarer, 0) <= DoubleGameThreshold && SidePoints(data, Opponents, 0) <= DoubleGameThreshold
  {
    SidePointsShareTheDeck(data, 0);
    TotalCardPoints();
  }

  datatype PagatUltimoResult = Failed | Succeeded | NotInLastTrick

  /** PagatUltimoWinnerSide as scoring.h:66-78 writes it: the flag named
      pagat_in_last_trick is set when the search for Pagat in the last
      trick fails. */
  function PagatUltimoOutcomeAsWritten(data: GameData): PagatUltimoResult
    requires |data.tricks| > 0 && |data.trickWinners| > 0
  {
    var pagatInLastTrick := Pagat !in data.tricks[|data.tricks| - 1];
    var taker := data.trickWinners[|data.trickWinners| - 1];
    var pagatWon := data.deck[Pagat] == WonCardsLocation(taker);
    if !pagatInLastTrick then NotInLastTrick
    else if pagatWon then Succeeded
    else Failed
  }

  /** The discrepancy: as written, the result is "not in the last trick"
      exactly when Pagat is in the last trick, so it never agrees with the
      outcome the flag's name describes. */
  lemma PagatTestIsInverted(data: GameData)
    requires |data.tricks| > 0 && |data.trickWinners| > 0
    ensures PagatUltimoOutcomeAsWritten(data) == NotInLastTrick <==> Pagat in data.tricks[|data.tricks| - 1]
    ensures PagatUltimoOutcomeAsWritten(data) != PagatUltimoOutcome(data)
  {
  }

  /** The pagat-ultimo outcome with the test the flag's name describes. */
  function PagatUltimoOutcome(data: GameData): PagatUltimoResult
    requires |data.tricks| > 0 && |data.trickWinners| > 0
  {
    var pagatInLastTrick := Pagat in data.tricks[|data.tricks| - 1];
    var taker := data.trickWinners[|data.trickWinners| - 1];
    var pagatWon := data.deck[Pagat] == WonCardsLocation(taker);
    if !pagatInLastTrick then NotInLastTrick
    else if pagatWon then Succeeded
    else Failed
  }

  /** The corrected outcome: no pagat ultimo unless Pagat was played to
      the last trick; then it succeeds exactly when Pagat lies in the last
      taker's pile. */
  lemma PagatUltimoRules(data: GameData)
    requires |data.tricks| > 0 && |data.trickWinners| > 0
    ensures var last := data.tricks[|data.tricks| - 1];
      var taker := data.trickWinners[|data.trickWinners| - 1];
      && (PagatUltimoOutcome(data) == NotInLastTrick <==> Pagat !in last)
      && (PagatUltimoOutcome(data) == Succeeded <==> Pagat in last && data.deck[Pagat] == WonCardsLocation(taker))
  {
  }

  /** Since the last trick's cards all go to its taker, a Pagat played to
      the last trick always lies in the last taker's pile: the outcome is
      never "failed". */
  lemma PagatUltimoNeverFails(data: GameData)
    requires |data.tricks| > 0 && |data.trickWinners| > 0
    requires var last := data.tricks[|data.tricks| - 1];
      forall j :: 0 <= j < NumPlayers && 0 <= last[j] < DeckSize ==>
        data.deck[last[j]] == WonCardsLocation(data.trickWinners[|data.trickWinners| - 1])
    ensures PagatUltimoOutcome(data) != Failed
  {
    var last := data.tricks[|data.tricks| - 1];
    if Pagat in last {
      var j :| 0 <= j < NumPlayers && last[j] == Pagat;
    }
  }

  /** Whether some trick from index i on held both XXI and Skiz. */
  function SomeTrickHoldsBoth(tricks: seq<Trick>, i: int): (found: bool)
    requires 0 <= i <= |tricks|
    ensures found <==> exists j :: i <= j < |tricks| && XXI in tricks[j] && Skiz in tricks[j]
    decreases |tricks| - i
  {
    if i == |tricks| then false
    else (XXI in tricks[i] && Skiz in tricks[i]) || SomeTrickHoldsBoth(tricks, i + 1)
  }

  /** XXI capture: when XXI and Skiz fell in one trick and lie in one
      pile, the side of that pile caught XXI. */
  function XXICatchWinnerSide(data: GameData): (r: Option<Side>)
    ensures r.Some? <==>
      (exists j :: 0 <= j < |data.tricks| && XXI in data.tricks[j] && Skiz in data.tricks[j])
      && data.deck[XXI] == data.deck[Skiz]
    ensures r.Some? ==> r.value == CardWinnerSide(data, XXI) == CardWinnerSide(data, Skiz)
  {
    if SomeTrickHoldsBoth(data.tricks, 0) && data.deck[XXI] == data.deck[Skiz] then
      Some(CardWinnerSide(data, XXI))
    else None
  }

  function Pow2(n: nat): (p: int)
    ensures p >= 1
  {
    if n == 0 then 1 else 2 * Pow2(n - 1)
  }

  function SideRecord(data: GameData, side: Side): AnnouncementSide
  {
    if side == Declarer then data.declarerSide else data.opponentsSide
  }

  /** The multiplier of an announcement type for a side: 1 if the side did
      not announce it, else 2 doubled once per contra level. */
  function Multiplier(data: GameData, side: Side, i: int): int
    requires 0 <= i < NumAnnouncementTypes
  {
    var rec := SideRecord(data, side);
    if !rec.announced[i] then 1
    else 2 * Pow2(if rec.contraLevel[i] < 0 then 0 else rec.contraLevel[i])
  }

  /** score_multiplier: starts at 2 for an announced type and doubles it
      once per contra level. */
  method ScoreMultiplier(data: GameData, side: Side, i: int) returns (multiplier: int)
    requires 0 <= i < NumAnnouncementTypes
    ensures multiplier == Multiplier(data, side, i)
    ensures multiplier >= 1
    ensures SideRecord(data, side).announced[i] <==> multiplier >= 2
    ensures SideRecord(data, side).announced[i] && 0 <= SideRecord(data, side).contraLevel[i] ==>
      multiplier == Pow2(1 + SideRecord(data, side).contraLevel[i])
  {
    var rec := if side == Declarer then data.declarerSide else data.opponentsSide;
    multiplier := 1;
    if rec.announced[i] {
      multiplier := 2;
    } else {
      return 1;
    }
    var level := rec.contraLevel[i];
    var k := 0;
    while k < level
      invariant level >= 0 ==> 0 <= k <= level
      invariant level < 0 ==> k == 0
      invariant multiplier == 2 * Pow2(k)
    {
      multiplier := multiplier * 2;
      k := k + 1;
    }
  }

  /** add_scores: the change to the declarer's score from one announcement
      type. The winner earns the base times its multiplier; a side that
      announced but did not win pays the base times its own multiplier. */
  function AddScores(data: GameData, winner: Option<Side>, base: int, i: int): int
    requires 0 <= i < NumAnnouncementTypes
  {
    var declarerAnnounced := data.declarerSide.announced[i];
    var opponentsAnnounced := data.opponentsSide.announced[i];
    (if winner == Some(Declarer) then base * Multiplier(data, Declarer, i)
     else if winner == Some(Opponents) then -(base * Multiplier(data, Opponents, i))
     else 0)
    - (if declarerAnnounced && winner != Some(Declarer) then base * Multiplier(data, Declarer, i) else 0)
    + (if opponentsAnnounced && winner != Some(Opponents) then base * Multiplier(data, Opponents, i) else 0)
  }

  function OtherSideOf(s: Side): Side
  {
    if s == Declarer then Opponents else Declarer
  }

  function FlipWinner(w: Option<Side>): Option<Side>
  {
    match w
    case None => None
    case Some(s) => Some(OtherSideOf(s))
  }

  /** The same record with the two sides' announcements exchanged. */
  function SwapSides(data: GameData): GameData
  {
    data.(declarerSide := data.opponentsSide, opponentsSide := data.declarerSide)
  }

  /** Unannounced, a type is worth plus or minus the base to its winner,
      nothing without one; the rule treats the two sides alike, so
      exchanging them negates the change; and a declarer-announced
      Tuletroa won by the opponents costs the declarer 3. */
  lemma AddScoresRules(data: GameData, winner: Option<Side>, base: int, i: int)
    requires 0 <= i < NumAnnouncementTypes
    ensures !data.declarerSide.announced[i] && !data.opponentsSide.announced[i] ==>
      AddScores(data, winner, base, i) ==
        (if winner == Some(Declarer) then base else if winner == Some(Opponents) then -base else 0)
    ensures AddScores(SwapSides(data), FlipWinner(winner), base, i) == -AddScores(data, winner, base, i)
    ensures data.declarerSide.announced[i] && data.declarerSide.contraLevel[i] == 0
            && !data.opponentsSide.announced[i] && winner == Some(Opponents) ==>
      AddScores(data, winner, base, i) == -3 * base
  {
    assert Multiplier(SwapSides(data), Declarer, i) == Multiplier(data, Opponents, i);
    assert Multiplier(SwapSides(data), Opponents, i) == Multiplier(data, Declarer, i);
  }

  /** What CalculateScores needs of the record: a trick was played, the
      takers and the Pagat holder are seats. */
  predicate Scorable(data: GameData)
  {
    && |data.tricks| > 0 && |data.trickWinners| > 0
    && 0 <= data.pagatHolder < NumPlayers
  }

  /** The pagat-ultimo winner CalculateScores passes on for an outcome:
      the Pagat holder's side on success, the other side on failure. */
  function PagatWinnerFor(data: GameData, outcome: PagatUltimoResult): Option<Side>
    requires Scorable(data)
  {
    var pagatSide := data.playerSides[data.pagatHolder];
    match outcome
    case Succeeded => Some(pagatSide)
    case Failed => Some(OtherSideOf(pagatSide))
    case NotInLastTrick => None
  }

  /** The pagat-ultimo winner with the corrected test. */
  function PagatUltimoWinner(data: GameData): Option<Side>
    requires Scorable(data)
  {
    PagatWinnerFor(data, PagatUltimoOutcome(data))
  }

  /** The pagat-ultimo winner scoring.h:164-173 passes on, from the
      inverted test: nobody exactly when Pagat was played to the last
      trick, and otherwise a side, Pagat's holder's when the last taker's
      pile holds Pagat and the other side when it does not. */
  function PagatUltimoWinnerAsWritten(data: GameData): (w: Option<Side>)
    requires Scorable(data)
    ensures w == None <==> Pagat in data.tricks[|data.tricks| - 1]
    ensures w.Some? ==>
      (w.value == data.playerSides[data.pagatHolder] <==>
         data.deck[Pagat] == WonCardsLocation(data.trickWinners[|data.trickWinners| - 1]))
  {
    PagatWinnerFor(data, PagatUltimoOutcomeAsWritten(data))
  }

  /** The sum of add_scores over Tuletroa, Four Kings, XXI capture and
      pagat ultimo, for a given pagat-ultimo winner. */
  function ScoreWithPagat(data: GameData, pagatWinner: Option<Side>): int
    requires Scorable(data)
  {
    AddScores(data, TuletroaWinnerSide(data), TuletroaScore, TypeIndex(Tuletroa))
    + AddScores(data, FourKingsWinnerSide(data), FourKingsScore, TypeIndex(FourKings))
    + AddScores(data, XXICatchWinnerSide(data), XXICatchScore, TypeIndex(XXICapture))
    + AddScores(data, pagatWinner, PagatUltimoScore, TypeIndex(PagatUltimo))
  }

  /** The declarer's score with the corrected pagat test. */
  function DeclarerScore(data: GameData): int
    requires Scorable(data)
  {
    ScoreWithPagat(data, PagatUltimoWinner(data))
  }

  /** The declarer's score as scoring.h:156-174 computes it, with the
      inverted pagat test. */
  function DeclarerScoreAsWritten(data: GameData): int
    requires Scorable(data)
  {
    ScoreWithPagat(data, PagatUltimoWinnerAsWritten(data))
  }

  /** The two scores differ only in the pagat-ultimo term: with nothing
      announced, a Pagat played to the last trick earns its holder's side
      five points under the corrected test and nothing as written. */
  lemma PagatScoreDiscrepancy(data: GameData)
    requires Scorable(data)
    requires !data.declarerSide.announced[TypeIndex(PagatUltimo)]
    requires !data.opponentsSide.announced[TypeIndex(PagatUltimo)]
    requires Pagat in data.tricks[|data.tricks| - 1]
    requires data.deck[Pagat] == WonCardsLocation(data.trickWinners[|data.trickWinners| - 1])
    ensures DeclarerScore(data) - DeclarerScoreAsWritten(data)
      == if data.playerSides[data.pagatHolder] == Declarer then PagatUltimoScore else -PagatUltimoScore
  {
  }

  /** One add_scores call on the running declarer score. */
  method AccumulateScore(data: GameData, score: int, winner: Option<Side>, base: int, i: int)
    returns (score': int)
    requires 0 <= i < NumAnnouncementTypes
    ensures score' == score + AddScores(data, winner, base, i)
  {
    score' := score;
    var declarerAnnounced := data.declarerSide.announced[i];
    var opponentsAnnounced := data.opponentsSide.announced[i];
    if winner == Some(Declarer) {
      var m := ScoreMultiplier(data, Declarer, i);
      score' := score' + base * m;
    } else if winner == Some(Opponents) {
      var m := ScoreMultiplier(data, Opponents, i);
      score' := score' - base * m;
    }
    if declarerAnnounced && winner != Some(Declarer) {
      var m := ScoreMultiplier(data, Declarer, i);
      score' := score' - base * m;
    }
    if opponentsAnnounced && winner != Some(Opponents) {
      var m := ScoreMultiplier(data, Opponents, i);
      score' := score' + base * m;
    }
  }

  /** The body of CalculateScores up to its last statement: the declarer
      score accumulated over the four types, and the double-game winner
      computed and left unused. The pagat-ultimo outcome is the result of
      PagatUltimoWinnerSide, as written or corrected. */
  method AccumulateDeclarerScore(data: GameData, pagatOutcome: PagatUltimoResult) returns (declarerScore: int)
    requires Scorable(data)
    ensures declarerScore == ScoreWithPagat(data, PagatWinnerFor(data, pagatOutcome))
  {
    declarerScore := 0;
    declarerScore := AccumulateScore(data, declarerScore, TuletroaWinnerSide(data), TuletroaScore, TypeIndex(Tuletroa));
    declarerScore := AccumulateScore(data, declarerScore, FourKingsWinnerSide(data), FourKingsScore, TypeIndex(FourKings));
    declarerScore := AccumulateScore(data, declarerScore, XXICatchWinnerSide(data), XXICatchScore, TypeIndex(XXICapture));
    var pagatSide := data.playerSides[data.pagatHolder];
    var otherSide := OtherSideOf(pagatSide);
    if pagatOutcome == Succeeded {
      declarerScore := AccumulateScore(data, declarerScore, Some(pagatSide), PagatUltimoScore, TypeIndex(PagatUltimo));
    } else if pagatOutcome == Failed {
      declarerScore := AccumulateScore(data, declarerScore, Some(otherSide), PagatUltimoScore, TypeIndex(PagatUltimo));
    } else {
      declarerScore := AccumulateScore(data, declarerScore, None, PagatUltimoScore, TypeIndex(PagatUltimo));
    }
    var doubleGameWinner := DoubleGameWinnerSide(data);
  }

  /** CalculateScores as scoring.h:108-178 writes it: the score is
      accumulated with the inverted pagat test, but the function ends
      without a return statement, so its caller receives no scores. */
  method CalculateScoresAsWritten(data: GameData) returns (declarerScore: int, scores: Option<IntQuad>)
    requires Scorable(data)
    ensures declarerScore == DeclarerScoreAsWritten(data)
    ensures scores == None
  {
    declarerScore := AccumulateDeclarerScore(data, PagatUltimoOutcomeAsWritten(data));
    scores := None;
  }

  /** The scores of the four seats: the declarer score to each seat of
      the declarer side, its negation to each opponent. */
  function SeatScores(data: GameData): (scores: IntQuad)
    requires Scorable(data)
    ensures forall p :: 0 <= p < NumPlayers ==>
      scores[p] == if data.playerSides[p] == Declarer then DeclarerScore(data) else -DeclarerScore(data)
  {
    Shares(data.playerSides, DeclarerScore(data))
  }

  /** A declarer score shared out over the seats. */
  function Shares(sides: PlayerSides, declarerScore: int): (scores: IntQuad)
    ensures forall p :: 0 <= p < NumPlayers ==>
      scores[p] == if sides[p] == Declarer then declarerScore else -declarerScore
  {
    [SeatScore(sides[0], declarerScore), SeatScore(sides[1], declarerScore),
     SeatScore(sides[2], declarerScore), SeatScore(sides[3], declarerScore)]
  }

  /** A seat's share of the declarer score. */
  function SeatScore(side: Side, declarerScore: int): int
  {
    if side == Declarer then declarerScore else -declarerScore
  }

  /** CalculateScores with the per-seat result returned. */
  method CalculateScores(data: GameData) returns (scores: IntQuad)
    requires Scorable(data)
    ensures scores == SeatScores(data)
  {
    var declarerScore := AccumulateDeclarerScore(data, PagatUltimoOutcome(data));
    scores := Shares(data.playerSides, declarerScore);
  }

  /** With two seats on each side the scores sum to zero. */
  lemma SeatScoresZeroSum(data: GameData)
    requires Scorable(data)
    requires |set p | 0 <= p < NumPlayers && data.playerSides[p] == Declarer| == 2
    ensures SeatScores(data)[0] + SeatScores(data)[1] + SeatScores(data)[2] + SeatScores(data)[3] == 0
  {
    SetSizeIsCount(data.playerSides);
  }

  /** The number of declarer-side seats. */
  lemma SetSizeIsCount(sides: PlayerSides)
    ensures |set p | 0 <= p < NumPlayers && sides[p] == Declarer| ==
      (if sides[0] == Declarer then 1 else 0) + (if sides[1] == Declarer then 1 else 0)
      + (if sides[2] == Declarer then 1 else 0) + (if sides[3] == Declarer then 1 else 0)
  {
    assert DeclarerSeatsBelow(sides, 0) == {};
    DeclarerSeatsStep(sides, 0);
    DeclarerSeatsStep(sides, 1);
    DeclarerSeatsStep(sides, 2);
    DeclarerSeatsStep(sides, 3);
    assert DeclarerSeatsBelow(sides, NumPlayers) == set p | 0 <= p < NumPlayers && sides[p] == Declarer;
  }

  /** The declarer-side seats below n. */
  function DeclarerSeatsBelow(sides: PlayerSides, n: int): set<int>
  {
    set p | 0 <= p < n && p < NumPlayers && sides[p] == Declarer
  }

  /** Seat n joins the count when it is on the declarer side. */
  lemma DeclarerSeatsStep(sides: PlayerSides, n: int)
    requires 0 <= n < NumPlayers
    ensures |DeclarerSeatsBelow(sides, n + 1)| ==
      |DeclarerSeatsBelow(sides, n)| + (if sides[n] == Declarer then 1 else 0)
  {
    var below := DeclarerSeatsBelow(sides, n);
    assert n !in below;
    if sides[n] == Declarer {
      assert DeclarerSeatsBelow(sides, n + 1) == below + {n};
    } else {
      assert DeclarerSeatsBelow(sides, n + 1) == below;
    }
  }
}
