/** The Setup phase of the older class-per-phase engine (setup.h). It deals
    card after card to a player chosen by chance, like the current engine,
    but it does not check the chosen player against its own legal actions
    and it only ends after all 42 cards, so after the 36 cards that fill
    the four hands it has no legal action left and never ends. */
module SnapshotSetup {
  import opened Cards
  import opened TarokRecords
  import opened Decks
  import SetupRules

  /** The fields of a SetupPhase object. */
  datatype Dealing = Dealing(deck: Deck, handSizes: IntQuad, currentCard: int)

  /** The players the next card may go to: those holding fewer than nine. */
  function Receivers(s: Dealing): (actions: seq<int>)
    ensures forall a :: a in actions <==> 0 <= a < NumPlayers && s.handSizes[a] < PlayerHandSize
    ensures StrictlyAscending(actions)
  {
    SetupRules.PlayersWithRoom(s.handSizes, NumPlayers)
  }

  /** PhaseOver: every one of the 42 cards has been dealt. */
  predicate Dealt(s: Dealing)
  {
    s.currentCard >= DeckSize
  }

  /** DoApplyAction: card currentCard goes to the player named by the
      action, whatever that player's hand holds. */
  function Deal(s: Dealing, action: int): Dealing
    requires 0 <= s.currentCard < DeckSize
    requires 0 <= action < NumPlayers
  {
    Dealing(s.deck[s.currentCard := action],
            s.handSizes[action := s.handSizes[action] + 1],
            s.currentCard + 1)
  }

  /** What legal deals keep: the dealt cards lie in hands, each hand size
      counts the dealt cards of that hand and is at most nine. The cards
      not yet dealt are left unconstrained, as the source gives deck_ no
      initial value. */
  predicate DealingInv(s: Dealing)
  {
    && 0 <= s.currentCard <= SetupRules.DealtCards
    && (forall c :: 0 <= c < s.currentCard ==> 0 <= s.deck[c] < NumPlayers)
    && (forall p :: 0 <= p < NumPlayers ==>
          s.handSizes[p] == CountAt(s.deck, p, s.currentCard) <= PlayerHandSize)
  }

  /** With zeroed hand sizes, dealing starts in the invariant. */
  lemma StartDealingInv(deck: Deck)
    ensures DealingInv(Dealing(deck, ZeroQuad, 0))
  {
  }

  /** A legal deal puts the cursor card in the receiver's hand, grows that
      hand by one and keeps the invariant. */
  lemma LegalDealKeepsInv(s: Dealing, action: int)
    requires DealingInv(s) && action in Receivers(s)
    ensures s.currentCard < SetupRules.DealtCards
    ensures DealingInv(Deal(s, action))
    ensures Deal(s, action).deck[s.currentCard] == action
    ensures CountAt(Deal(s, action).deck, action, s.currentCard + 1) ==
      CountAt(s.deck, action, s.currentCard) + 1
  {
    HandCountsSum(s.deck, s.currentCard);
    DealCounts(s, action);
  }

  /** The dealt card counts for its receiver and for no one else. */
  lemma DealCounts(s: Dealing, action: int)
    requires 0 <= s.currentCard < DeckSize && 0 <= action < NumPlayers
    requires forall p :: 0 <= p < NumPlayers ==> s.handSizes[p] == CountAt(s.deck, p, s.currentCard)
    ensures forall p :: 0 <= p < NumPlayers ==>
      CountAt(Deal(s, action).deck, p, s.currentCard + 1)
        == CountAt(s.deck, p, s.currentCard) + (if p == action then 1 else 0)
        == Deal(s, action).handSizes[p]
  {
    var t := Deal(s, action);
    forall p | 0 <= p < NumPlayers
      ensures CountAt(t.deck, p, s.currentCard + 1) == CountAt(s.deck, p, s.currentCard) + (if p == action then 1 else 0)
    {
      CountAfterMove(s.deck, s.currentCard, action, p, s.currentCard);
    }
  }

  /** After the 36 legal deals that fill the hands no player has room, so
      there is no legal action, yet the phase is not over: the game cannot
      leave Setup by legal moves. */
  lemma SetupStalls(s: Dealing)
    requires DealingInv(s) && s.currentCard == SetupRules.DealtCards
    ensures forall p :: 0 <= p < NumPlayers ==> s.handSizes[p] == PlayerHandSize
    ensures Receivers(s) == []
    ensures !Dealt(s)
  {
    HandCountsSum(s.deck, s.currentCard);
    if Receivers(s) != [] {
      assert Receivers(s)[0] in Receivers(s);
    }
  }

  /** Nothing stops a deal beyond the 36th: it gives a tenth card to a
      full hand. */
  lemma UncheckedDealOverfills(s: Dealing, p: int)
    requires DealingInv(s) && s.currentCard == SetupRules.DealtCards
    requires 0 <= p < NumPlayers
    ensures p !in Receivers(s)
    ensures Deal(s, p).handSizes[p] == PlayerHandSize + 1
  {
    SetupStalls(s);
  }

  /** A deal by the older class does to the deck and the hand counts what
      a deal of the current engine does. */
  lemma DealMatchesEngine(g: Game, action: int)
    requires !SetupRules.SetupPhaseOver(g) && 0 <= g.setup.currentCard
    requires 0 <= action < NumPlayers
    ensures var s := Dealing(g.data.deck, g.setup.handSizes, g.setup.currentCard);
      var h := SetupRules.SetupDoApplyAction(g, action);
      Deal(s, action) == Dealing(h.data.deck, h.setup.handSizes, h.setup.currentCard)
  {
  }

  /** A SetupPhase object. */
  class SetupPhase {
    var deck: Deck
    var handSizes: IntQuad
    var currentCard: int

    function Value(): Dealing
      reads this
    {
      Dealing(deck, handSizes, currentCard)
    }

    /** The source gives deck_ and player_hands_sizes_ no initial value;
        they are parameters here. The cursor starts at card 0. */
    constructor (deck0: Deck, sizes0: IntQuad)
      ensures Value() == Dealing(deck0, sizes0, 0)
    {
      deck := deck0;
      handSizes := sizes0;
      currentCard := 0;
    }

    /** Setup is always chance's turn. */
    function CurrentPlayer(): int
    {
      ChancePlayerId
    }

    method LegalActions() returns (actions: seq<int>)
      ensures actions == Receivers(Value())
    {
      actions := [];
      for player := 0 to NumPlayers
        invariant actions == SetupRules.PlayersWithRoom(handSizes, player)
      {
        if handSizes[player] < PlayerHandSize {
          actions := actions + [player];
        }
      }
    }

    method DoApplyAction(action: int)
      requires 0 <= currentCard < DeckSize
      requires 0 <= action < NumPlayers
      modifies this
      ensures Value() == Deal(old(Value()), action)
    {
      deck := deck[currentCard := action];
      handSizes := handSizes[action := handSizes[action] + 1];
      currentCard := currentCard + 1;
    }

    predicate PhaseOver()
      reads this
    {
      Dealt(Value())
    }

    predicate GameOver()
    {
      false
    }
  }
}
