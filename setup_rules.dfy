/** The Setup phase of the current engine (phases.cc): chance deals the
    first 36 cards one by one, each to a player whose hand is not full. */
module SetupRules {
  import opened Cards
  import opened TarokRecords
  import opened Decks

  /** The number of cards dealt in Setup. */
  const DealtCards := PlayerHandSize * NumPlayers

  predicate SetupPhaseOver(g: Game)
  {
    g.setup.currentCard >= DealtCards
  }

  function SetupCurrentPlayer(g: Game): (p: int)
    ensures p == TerminalPlayerId || p == ChancePlayerId
    ensures p == TerminalPlayerId <==> SetupPhaseOver(g)
  {
    if SetupPhaseOver(g) then TerminalPlayerId else ChancePlayerId
  }

  /** The seats below n whose hands hold fewer than nine cards, ascending. */
  function PlayersWithRoom(sizes: IntQuad, n: int): (ps: seq<int>)
    requires 0 <= n <= NumPlayers
    ensures forall p :: p in ps <==> 0 <= p < n && sizes[p] < PlayerHandSize
    ensures StrictlyAscending(ps)
    ensures forall i :: 0 <= i < |ps| ==> ps[i] < n
  {
    if n == 0 then []
    else PlayersWithRoom(sizes, n - 1) + (if sizes[n - 1] < PlayerHandSize then [n - 1] else [])
  }

  /** The players that may receive the next card. */
  function SetupLegalActions(g: Game): (actions: seq<int>)
    requires !SetupPhaseOver(g)
  {
    PlayersWithRoom(g.setup.handSizes, NumPlayers)
  }

  /** Deals card currentCard to the player named by the action. */
  function SetupDoApplyAction(g: Game, action: int): Game
    requires 0 <= action < NumPlayers
    requires !SetupPhaseOver(g)
    requires 0 <= g.setup.currentCard
  {
    var card := g.setup.currentCard;
    var data := if card == Pagat then g.data.(pagatHolder := action) else g.data;
    g.(data := data.(deck := data.deck[card := action]),
       setup := SetupState(g.setup.handSizes[action := g.setup.handSizes[action] + 1], card + 1))
  }

  /** The Setup invariant: the cards below the cursor lie in hands, the
      others in the talon, each hand size field counts its hand and is at
      most nine, and the Pagat holder is the receiver of card 0. */
  predicate SetupInv(g: Game)
  {
    var deck := g.data.deck;
    var cur := g.setup.currentCard;
    && 0 <= cur <= DealtCards
    && (forall c :: 0 <= c < cur ==> 0 <= deck[c] < NumPlayers)
    && (forall c :: cur <= c < DeckSize ==> deck[c] == Talon)
    && (forall p :: 0 <= p < NumPlayers ==>
          g.setup.handSizes[p] == CountAt(deck, p, DeckSize) <= PlayerHandSize)
    && (cur > 0 ==> g.data.pagatHolder == deck[Pagat])
  }

  /** A new game satisfies the Setup invariant. */
  lemma NewGameSetupInv()
    ensures SetupInv(NewGame())
  {
    var g := NewGame();
    forall p | 0 <= p < NumPlayers
      ensures g.setup.handSizes[p] == CountAt(g.data.deck, p, DeckSize)
    {
      EmptyLocation(g.data.deck, p);
    }
  }

  /** Legal actions are exactly the players with room, ascending. */
  lemma SetupLegalActionsAreRoom(g: Game)
    requires !SetupPhaseOver(g)
    ensures forall a :: a in SetupLegalActions(g) <==>
      0 <= a < NumPlayers && g.setup.handSizes[a] < PlayerHandSize
    ensures StrictlyAscending(SetupLegalActions(g))
  {
  }

  /** A legal deal moves exactly the cursor card from the talon to the
      receiver's hand, grows that hand by one, and keeps the invariant. */
  lemma SetupDealKeepsInv(g: Game, action: int)
    requires SetupInv(g) && !SetupPhaseOver(g)
    requires action in SetupLegalActions(g)
    ensures var h := SetupDoApplyAction(g, action);
      && SetupInv(h)
      && h.setup.currentCard == g.setup.currentCard + 1
      && h.data.deck[g.setup.currentCard] == action
      && CountAt(h.data.deck, action, DeckSize) == CountAt(g.data.deck, action, DeckSize) + 1
      && (g.setup.currentCard == Pagat ==> h.data.pagatHolder == action)
  {
    var card := g.setup.currentCard;
    var h := SetupDoApplyAction(g, action);
    forall p | 0 <= p < NumPlayers
      ensures h.setup.handSizes[p] == CountAt(h.data.deck, p, DeckSize)
    {
      CountAfterMove(g.data.deck, card, action, p, DeckSize);
    }
  }

  /** When Setup is over every hand holds exactly nine cards, the six
      cards 36..41 are still in the talon, and the Pagat holder is the
      player holding card 0. */
  lemma SetupEndsWithFullHands(g: Game)
    requires SetupInv(g) && SetupPhaseOver(g)
    ensures forall p :: 0 <= p < NumPlayers ==>
      g.setup.handSizes[p] == CountAt(g.data.deck, p, DeckSize) == PlayerHandSize
    ensures forall c :: DealtCards <= c < DeckSize ==> g.data.deck[c] == Talon
    ensures forall c :: 0 <= c < DealtCards ==> 0 <= g.data.deck[c] < NumPlayers
    ensures g.data.pagatHolder == g.data.deck[Pagat]
  {
    var deck := g.data.deck;
    HandCountsSum(deck, DealtCards);
    forall p | 0 <= p < NumPlayers
      ensures CountAt(deck, p, DeckSize) == CountAt(deck, p, DealtCards)
    {
      CountStable(deck, p, DealtCards, DeckSize);
    }
  }
}
