/** The state machine of phases.cc and hungarian_tarok.cc: the phase tag
    dispatches every query and every action to the current phase, and
    AdvancePhase moves through Setup, Bidding, Talon, Skart, Announcements
    and Play in that order. */
module GameRules {
  import opened Wrappers
  import opened Cards
  import opened TarokRecords
  import opened Decks
  import opened AnnouncementCodec
  import opened SetupRules
  import opened BiddingRules
  import opened TalonRules
  import opened SkartRules
  import opened AnnouncementRules
  import opened PlayRules
  import opened Scoring

  function PhaseCurrentPlayer(g: Game): int
  {
    match g.phase
    case SetupPhase => SetupCurrentPlayer(g)
    case BiddingPhase => g.bidding.currentPlayer
    case TalonPhase => TalonCurrentPlayer(g)
    case SkartPhase => SkartCurrentPlayer(g)
    case AnnouncementsPhase => AnnouncementsCurrentPlayer(g)
    case PlayPhase => PlayCurrentPlayer(g)
  }

  /** CurrentPlayer is the phase's current player, with no override for
      a finished game. */
  function CurrentPlayer(g: Game): int
  {
    PhaseCurrentPlayer(g)
  }

  predicate PhaseOver(g: Game)
  {
    match g.phase
    case SetupPhase => SetupPhaseOver(g)
    case BiddingPhase => BiddingPhaseOver(g)
    case TalonPhase => TalonPhaseOver(g)
    case SkartPhase => SkartPhaseOver(g)
    case AnnouncementsPhase => AnnouncementsPhaseOver(g)
    case PlayPhase => PlayPhaseOver(g)
  }

  /** Only Bidding (when everybody passed) and Play (after the ninth
      trick) can end the game. */
  predicate GameOver(g: Game)
  {
    match g.phase
    case BiddingPhase => BiddingGameOver(g)
    case PlayPhase => PlayGameOver(g)
    case _ => false
  }

  predicate IsTerminal(g: Game)
  {
    GameOver(g)
  }

  /** The returns: the seats' scores once Play is over, zeros otherwise. */
  function Returns(g: Game): (r: IntQuad)
    requires g.phase == PlayPhase && PlayPhaseOver(g) ==> Scorable(g.data)
    ensures !(g.phase == PlayPhase && PlayPhaseOver(g)) ==> r == ZeroQuad
    ensures g.phase == PlayPhase && PlayPhaseOver(g) ==>
      forall p :: 0 <= p < NumPlayers ==>
        r[p] == if g.data.playerSides[p] == Declarer then DeclarerScore(g.data) else -DeclarerScore(g.data)
  {
    if g.phase == PlayPhase && PlayPhaseOver(g) then SeatScores(g.data) else ZeroQuad
  }

  /** What the phases' SPIEL_CHECKs and array bounds demand of an action. */
  predicate ActionAccepted(g: Game, action: int)
  {
    match g.phase
    case SetupPhase =>
      0 <= action < NumPlayers && !SetupPhaseOver(g) && 0 <= g.setup.currentCard
    case BiddingPhase =>
      && !BiddingPhaseOver(g) && 0 <= g.bidding.currentPlayer < NumPlayers
      && action in BiddingLegalActions(g)
    case TalonPhase =>
      && 0 <= action < TalonSize && !g.talon.talonTaken[action]
      && !TalonPhaseOver(g) && 0 <= g.talon.currentPlayer < NumPlayers
      && |g.talon.talonCards| == TalonSize && 0 <= g.talon.talonCards[action] < DeckSize
    case SkartPhase =>
      && 0 <= action < DeckSize && g.data.deck[action] == g.skart.currentPlayer
      && !SkartPhaseOver(g) && 0 <= g.skart.currentPlayer < NumPlayers
    case AnnouncementsPhase =>
      && !AnnouncementsPhaseOver(g) && 0 <= g.announcements.currentPlayer < NumPlayers
      && action in AnnouncementsLegalActions(g)
    case PlayPhase =>
      && 0 <= action < DeckSize && g.data.deck[action] == g.play.currentPlayer
      && !PlayPhaseOver(g) && |g.play.trickCards| < NumPlayers
      && (forall i :: 0 <= i < |g.play.trickCards| ==> 0 <= g.play.trickCards[i] < DeckSize)
  }

  function PhaseDoApplyAction(g: Game, action: int): (h: Game)
    requires ActionAccepted(g, action)
    ensures h.phase == g.phase
  {
    match g.phase
    case SetupPhase => SetupDoApplyAction(g, action)
    case BiddingPhase => BiddingDoApplyAction(g, action)
    case TalonPhase => TalonDoApplyAction(g, action)
    case SkartPhase => SkartDoApplyAction(g, action)
    case AnnouncementsPhase => AnnouncementsDoApplyAction(g, action)
    case PlayPhase => PlayDoApplyAction(g, action)
  }

  /** What the next phase's Start needs: the honours in hands for
      Bidding, a seated declarer and a six-card talon for Talon, a seated
      declarer for Skart. */
  predicate AdvanceReady(g: Game)
  {
    match g.phase
    case SetupPhase =>
      && IsHandLocation(g.data.deck[Skiz]) && IsHandLocation(g.data.deck[Pagat])
      && IsHandLocation(g.data.deck[XXI])
    case BiddingPhase =>
      0 <= g.data.declarer < NumPlayers && CountAt(g.data.deck, Talon, DeckSize) == TalonSize
    case TalonPhase => 0 <= g.data.declarer < NumPlayers
    case SkartPhase => true
    case AnnouncementsPhase => true
    case PlayPhase => false
  }

  /** AdvancePhase: the next phase in order, started; leaving Bidding
      records the winning number and whether three players bid. */
  function AdvancePhase(g: Game): (h: Game)
    requires PhaseOver(g) && AdvanceReady(g)
    ensures NextPhaseType(g.phase) == Some(h.phase)
  {
    match g.phase
    case SetupPhase => StartBiddingPhase(g.(phase := BiddingPhase))
    case BiddingPhase =>
      var data := g.data.(fullBid := NumTrue(g.bidding.hasBid) == 3, winningBid := g.bidding.lowestBid);
      StartTalonPhase(g.(phase := TalonPhase, data := data))
    case TalonPhase => StartSkartPhase(g.(phase := SkartPhase))
    case SkartPhase => StartAnnouncementsPhase(g.(phase := AnnouncementsPhase))
    case AnnouncementsPhase => StartPlayPhase(g.(phase := PlayPhase))
  }

  /** Leaving Bidding sets the winning number to the auction's number and
      the full-bid flag exactly when three players bid, and touches
      nothing else of the shared record but the fields Talon's start does
      not read. */
  lemma AdvanceFromBidding(g: Game)
    requires g.phase == BiddingPhase && PhaseOver(g) && AdvanceReady(g)
    ensures var h := AdvancePhase(g);
      && h.phase == TalonPhase
      && h.data.winningBid == g.bidding.lowestBid
      && (h.data.fullBid <==> NumTrue(g.bidding.hasBid) == 3)
      && h.data.deck == g.data.deck && h.data.declarer == g.data.declarer
      && h.talon.talonTakenCount == 0
  {
  }

  /** Every seat of the hand that a finished Setup leaves: the first 36
      cards in hands, nine each, the last six in the talon. */
  predicate SetupDealt(deck: Deck)
  {
    && (forall c :: 0 <= c < DealtCards ==> 0 <= deck[c] < NumPlayers)
    && (forall c :: DealtCards <= c < DeckSize ==> deck[c] == Talon)
    && (forall p :: 0 <= p < NumPlayers ==> CountAt(deck, p, DeckSize) == PlayerHandSize)
  }

  /** The results of Bidding's start that nothing changes before the
      partner call: no partner and two fresh announcement records. */
  predicate FreshResults(data: GameData)
  {
    && data.partner == None
    && data.declarerSide == FreshAnnouncementSide()
    && data.opponentsSide == FreshAnnouncementSide()
  }

  /** The deck a finished Skart leaves: nine cards in every hand, the
      others in the two skarts. */
  predicate SkartedDeck(deck: Deck)
  {
    && (forall p :: 0 <= p < NumPlayers ==> CountAt(deck, p, DeckSize) == PlayerHandSize)
    && (forall c :: 0 <= c < DeckSize ==>
          0 <= deck[c] < NumPlayers || deck[c] == DeclarerSkart || deck[c] == OpponentsSkart)
  }

  /** What the current phase keeps, together with what the earlier
      phases left behind. */
  predicate PhaseInv(g: Game)
  {
    match g.phase
    case SetupPhase => SetupInv(g)
    case BiddingPhase => BiddingInv(g) && SetupDealt(g.data.deck) && FreshResults(g.data)
    case TalonPhase => TalonInv(g) && FreshResults(g.data)
    case SkartPhase => SkartInv(g) && FreshResults(g.data)
    case AnnouncementsPhase => AnnouncementsInv(g) && SkartedDeck(g.data.deck)
    case PlayPhase => PlayInv(g)
  }

  /** The Pagat's holder is recorded once Setup has dealt it. */
  predicate PagatRecorded(g: Game)
  {
    g.phase != SetupPhase ==> 0 <= g.data.pagatHolder < NumPlayers
  }

  /** The invariant of every state a game reaches: a finished phase has
      ended the game, and the phase invariant holds. */
  predicate GameInv(g: Game)
  {
    && (PhaseOver(g) ==> GameOver(g))
    && PagatRecorded(g)
    && PhaseInv(g)
  }

  lemma NewGameInv()
    ensures GameInv(NewGame())
  {
    NewGameSetupInv();
  }

  /** The legal actions of the current phase. */
  function LegalActions(g: Game): seq<int>
    requires GameInv(g) && !IsTerminal(g)
  {
    match g.phase
    case SetupPhase => SetupLegalActions(g)
    case BiddingPhase => BiddingLegalActions(g)
    case TalonPhase => TalonLegalActions(g)
    case SkartPhase => SkartLegalActions(g)
    case AnnouncementsPhase => AnnouncementsLegalActions(g)
    case PlayPhase => PlayLegalActions(g)
  }

  /** The six talon cards after Setup make the deck Talon expects. */
  lemma SetupDealtIsDealtDeck(deck: Deck)
    requires SetupDealt(deck)
    ensures DealtDeck(deck)
  {
    CountStable(deck, Talon, 0, DealtCards);
    CountFull(deck, Talon, DealtCards, DeckSize);
  }

  /** What a phase's step leaves: the phase invariant, and, when the step
      ended the phase without ending the game, what the next phase needs. */
  predicate StepLeaves(h: Game)
  {
    && PhaseInv(h) && PagatRecorded(h)
    && (!GameOver(h) && PhaseOver(h) ==> AdvanceReady(h))
  }

  /** Setup's step, stated on Setup's own invariant. */
  lemma SetupStepLeaves(g: Game, action: int)
    requires g.phase == SetupPhase && SetupInv(g) && !SetupPhaseOver(g)
    requires action in SetupLegalActions(g)
    ensures StepLeaves(SetupDoApplyAction(g, action))
  {
    SetupDealKeepsInv(g, action);
    var h := SetupDoApplyAction(g, action);
    if SetupPhaseOver(h) {
      SetupEndsWithFullHands(h);
    }
  }

  lemma SetupStep(g: Game, action: int)
    requires g.phase == SetupPhase && GameInv(g) && !IsTerminal(g) && action in LegalActions(g)
    ensures ActionAccepted(g, action) && StepLeaves(PhaseDoApplyAction(g, action))
  {
    assert action in SetupLegalActions(g);
    SetupLegalActionsAreRoom(g);
    assert PhaseDoApplyAction(g, action) == SetupDoApplyAction(g, action);
    SetupStepLeaves(g, action);
  }

  lemma BiddingStep(g: Game, action: int)
    requires g.phase == BiddingPhase && GameInv(g) && !IsTerminal(g) && action in LegalActions(g)
    ensures ActionAccepted(g, action) && StepLeaves(PhaseDoApplyAction(g, action))
  {
    assert action in BiddingLegalActions(g);
    BiddingStepKeepsInv(g, action);
    BiddingKeepsRecord(g, action);
    var h := BiddingDoApplyAction(g, action);
    assert PhaseDoApplyAction(g, action) == h;
    assert h.data.deck == g.data.deck;
    assert PhaseInv(h) && PagatRecorded(h);
    if BiddingPhaseOver(h) && !BiddingGameOver(h) {
      FinishedAuctionHasWinner(h);
      SetupDealtIsDealtDeck(h.data.deck);
      assert AdvanceReady(h);
    }
  }

  lemma TalonStep(g: Game, action: int)
    requires g.phase == TalonPhase && GameInv(g) && !IsTerminal(g) && action in LegalActions(g)
    ensures ActionAccepted(g, action) && StepLeaves(PhaseDoApplyAction(g, action))
  {
    TalonStepKeepsInv(g, action);
  }

  lemma SkartStep(g: Game, action: int)
    requires g.phase == SkartPhase && GameInv(g) && !IsTerminal(g) && action in LegalActions(g)
    ensures ActionAccepted(g, action) && StepLeaves(PhaseDoApplyAction(g, action))
  {
    SkartStepKeepsInv(g, action);
  }

  lemma AnnouncementsPhaseStep(g: Game, action: int)
    requires g.phase == AnnouncementsPhase && GameInv(g) && !IsTerminal(g) && action in LegalActions(g)
    ensures ActionAccepted(g, action) && StepLeaves(PhaseDoApplyAction(g, action))
  {
    AnnouncementsStep(g, action);
  }

  lemma PlayStep(g: Game, action: int)
    requires g.phase == PlayPhase && GameInv(g) && !IsTerminal(g) && action in LegalActions(g)
    ensures ActionAccepted(g, action) && StepLeaves(PhaseDoApplyAction(g, action))
  {
    PlayLegalActionsRules(g, action);
    assert ActionAccepted(g, action);
    PlayStepLeaves(g, action);
  }

  /** Play's step, stated on Play's own invariant. */
  lemma PlayStepLeaves(g: Game, action: int)
    requires g.phase == PlayPhase && PlayInv(g) && PagatRecorded(g) && ActionAccepted(g, action)
    ensures StepLeaves(PhaseDoApplyAction(g, action))
  {
    PlayStepKeepsInv(g, action);
  }

  /** A legal action passes the phase's checks, and the phase's step
      leaves the phase invariant and, if the phase ended, a state ready to
      advance. */
  lemma PhaseStepReady(g: Game, action: int)
    requires GameInv(g) && !IsTerminal(g) && action in LegalActions(g)
    ensures ActionAccepted(g, action) && StepLeaves(PhaseDoApplyAction(g, action))
  {
    match g.phase
    case SetupPhase => SetupStep(g, action);
    case BiddingPhase => BiddingStep(g, action);
    case TalonPhase => TalonStep(g, action);
    case SkartPhase => SkartStep(g, action);
    case AnnouncementsPhase => AnnouncementsPhaseStep(g, action);
    case PlayPhase => PlayStep(g, action);
  }

  /** DoApplyAction: apply the phase's action; unless the game is over,
      advance when the phase is over. */
  function DoApplyAction(g: Game, action: int): Game
    requires GameInv(g) && !IsTerminal(g) && action in LegalActions(g)
  {
    PhaseStepReady(g, action);
    var h := PhaseDoApplyAction(g, action);
    if GameOver(h) then h
    else if PhaseOver(h) then AdvancePhase(h)
    else h
  }

  /** A phase that starts right after the previous one ended satisfies
      the game invariant. */
  lemma AdvanceKeepsInv(g: Game)
    requires PhaseOver(g) && !GameOver(g) && StepLeaves(g)
    ensures GameInv(AdvancePhase(g))
  {
    match g.phase
    case SetupPhase => AdvanceFromSetupInv(g);
    case BiddingPhase => AdvanceFromBiddingInv(g);
    case TalonPhase => AdvanceFromTalonInv(g);
    case SkartPhase => AdvanceFromSkartInv(g);
    case AnnouncementsPhase => AdvanceFromAnnouncementsInv(g);
  }

  lemma AdvanceFromSetupInv(g: Game)
    requires g.phase == SetupPhase && PhaseOver(g) && !GameOver(g) && StepLeaves(g)
    ensures GameInv(AdvancePhase(g))
  {
    var g' := g.(phase := BiddingPhase);
    assert AdvancePhase(g) == StartBiddingPhase(g');
    SetupEndsWithFullHands(g);
    StartBiddingInv(g');
  }

  lemma AdvanceFromBiddingInv(g: Game)
    requires g.phase == BiddingPhase && PhaseOver(g) && !GameOver(g) && StepLeaves(g)
    ensures GameInv(AdvancePhase(g))
  {
    var data := g.data.(fullBid := NumTrue(g.bidding.hasBid) == 3, winningBid := g.bidding.lowestBid);
    var g' := g.(phase := TalonPhase, data := data);
    FinishedAuctionHasWinner(g);
    SetupDealtIsDealtDeck(g.data.deck);
    assert AdvancePhase(g) == StartTalonPhase(g');
    StartTalonInv(g');
  }

  lemma AdvanceFromTalonInv(g: Game)
    requires g.phase == TalonPhase && PhaseOver(g) && !GameOver(g) && StepLeaves(g)
    ensures GameInv(AdvancePhase(g))
  {
    var g' := g.(phase := SkartPhase);
    assert AdvancePhase(g) == StartSkartPhase(g');
    StartSkartInv(g');
  }

  lemma AdvanceFromSkartInv(g: Game)
    requires g.phase == SkartPhase && PhaseOver(g) && !GameOver(g) && StepLeaves(g)
    ensures GameInv(AdvancePhase(g))
  {
    var g' := g.(phase := AnnouncementsPhase);
    assert AdvancePhase(g) == StartAnnouncementsPhase(g');
    SkartEndsWithFullHands(g);
    StartAnnouncementsInv(g');
  }

  lemma AdvanceFromAnnouncementsInv(g: Game)
    requires g.phase == AnnouncementsPhase && PhaseOver(g) && !GameOver(g) && StepLeaves(g)
    ensures GameInv(AdvancePhase(g))
  {
    var g' := g.(phase := PlayPhase);
    assert AdvancePhase(g) == StartPlayPhase(g');
    StartPlayInv(g');
  }

  /** Every action keeps the game invariant: the game only ever passes
      through states whose phase invariants hold. */
  lemma GameStepKeepsInv(g: Game, action: int)
    requires GameInv(g) && !IsTerminal(g) && action in LegalActions(g)
    ensures GameInv(DoApplyAction(g, action))
  {
    PhaseStepReady(g, action);
    var h := PhaseDoApplyAction(g, action);
    if !GameOver(h) && PhaseOver(h) {
      AdvanceKeepsInv(h);
    }
  }

  /** A game that is not over always offers a move: the current player is
      chance or a seat, and the legal actions are not empty. */
  lemma NonTerminalHasMoves(g: Game)
    requires GameInv(g) && !IsTerminal(g)
    ensures CurrentPlayer(g) == ChancePlayerId || 0 <= CurrentPlayer(g) < NumPlayers
    ensures LegalActions(g) != []
  {
    match g.phase
    case SetupPhase =>
      var sizes := g.setup.handSizes;
      HandCountsSum(g.data.deck, g.setup.currentCard);
      forall p | 0 <= p < NumPlayers
        ensures CountAt(g.data.deck, p, DeckSize) == CountAt(g.data.deck, p, g.setup.currentCard)
      {
        CountStable(g.data.deck, p, g.setup.currentCard, DeckSize);
      }
      var p :| 0 <= p < NumPlayers && sizes[p] < PlayerHandSize;
      assert p in SetupLegalActions(g);
    case BiddingPhase =>
      assert BiddingPass in LegalActions(g);
    case TalonPhase =>
      TalonCanDraw(g);
    case SkartPhase =>
      SkartCanDiscard(g);
    case AnnouncementsPhase =>
      if g.announcements.partnerCalled {
        assert CalledActions(g)[|CalledActions(g)| - 1] == PassAction;
      }
    case PlayPhase =>
      PlayCanMove(g);
  }

  /** A finished game either ended in Bidding with everyone passing, or
      in Play after nine recorded tricks with every hand empty and scores
      that can be computed. */
  lemma TerminalStates(g: Game)
    requires GameInv(g) && IsTerminal(g)
    ensures g.phase == BiddingPhase || g.phase == PlayPhase
    ensures g.phase == BiddingPhase ==>
      g.bidding.allPassed && g.data.declarer == -1 && g.data.winningBid == -1 && Returns(g) == ZeroQuad
    ensures g.phase == PlayPhase ==>
      |g.data.tricks| == NumRounds && Scorable(g.data)
      && forall c :: 0 <= c < DeckSize ==> !IsHandLocation(g.data.deck[c])
  {
    if g.phase == PlayPhase {
      PlayEndsAfterNineTricks(g);
    }
  }
}
