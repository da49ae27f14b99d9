/** The Skart phase of the older class-per-phase engine (skart.h). The
    turn starts at seat 0 and nothing ever moves it, so seat 0 makes all
    six discards, onto the declarer's skart if seat 0 is the declarer and
    onto the opponents' skart otherwise, while the players who drew talon
    cards keep them. */
module SnapshotSkart {
  import opened Cards
  import opened TarokRecords
  import opened Decks

  /** The fields of a SkartPhase object. */
  datatype Discarding = Discarding(deck: Deck, declarer: int, currentPlayer: int, cardsDiscarded: int)

  /** The constructor: seat 0 to discard, nothing discarded yet. */
  function StartDiscarding(deck: Deck, declarer: int): Discarding
  {
    Discarding(deck, declarer, 0, 0)
  }

  predicate DiscardingOver(s: Discarding)
  {
    s.cardsDiscarded == TalonSize
  }

  /** The skart a player discards onto. */
  function PileFor(declarer: int, p: int): (pile: int)
    ensures pile == DeclarerSkart <==> p == declarer
    ensures pile == DeclarerSkart || pile == OpponentsSkart
  {
    if p == declarer then DeclarerSkart else OpponentsSkart
  }

  /** DoApplyAction: the card, which must be in the mover's hand, goes to
      the mover's skart and the count goes up; the turn stays. */
  function Apply(s: Discarding, action: int): Discarding
    requires 0 <= action < DeckSize && s.deck[action] == s.currentPlayer
    requires !DiscardingOver(s)
  {
    s.(deck := s.deck[action := PileFor(s.declarer, s.currentPlayer)],
       cardsDiscarded := s.cardsDiscarded + 1)
  }

  /** Every discard comes out of seat 0's hand, and seat 0's skart pile
      collects them; the other hands are as the phase found them. */
  predicate DrainInv(s: Discarding, before: Deck)
  {
    var pile := PileFor(s.declarer, 0);
    && s.currentPlayer == 0
    && 0 <= s.cardsDiscarded <= TalonSize
    && CountAt(s.deck, 0, DeckSize) + s.cardsDiscarded == CountAt(before, 0, DeckSize)
    && CountAt(s.deck, pile, DeckSize) == CountAt(before, pile, DeckSize) + s.cardsDiscarded
    && (forall q :: 1 <= q < NumPlayers ==> CountAt(s.deck, q, DeckSize) == CountAt(before, q, DeckSize))
  }

  lemma StartDrainInv(deck: Deck, declarer: int)
    ensures DrainInv(StartDiscarding(deck, declarer), deck)
  {
  }

  /** A discard keeps the turn at seat 0 and moves one card from seat
      0's hand to its skart. */
  lemma DrainStep(s: Discarding, before: Deck, action: int)
    requires DrainInv(s, before) && !DiscardingOver(s)
    requires 0 <= action < DeckSize && s.deck[action] == s.currentPlayer
    ensures DrainInv(Apply(s, action), before)
  {
    var pile := PileFor(s.declarer, 0);
    CountAfterMove(s.deck, action, pile, 0, DeckSize);
    CountAfterMove(s.deck, action, pile, pile, DeckSize);
    forall q | 1 <= q < NumPlayers
      ensures CountAt(Apply(s, action).deck, q, DeckSize) == CountAt(s.deck, q, DeckSize)
    {
      CountAfterMove(s.deck, action, pile, q, DeckSize);
    }
  }

  /** The discrepancy: at the end of the phase seat 0 has lost six cards
      and every other hand is unchanged, so a declarer other than seat 0
      keeps the talon cards it drew and has an empty skart. */
  lemma DrainEnd(s: Discarding, before: Deck)
    requires DrainInv(s, before) && DiscardingOver(s)
    ensures CountAt(s.deck, 0, DeckSize) == CountAt(before, 0, DeckSize) - TalonSize
    ensures forall q :: 1 <= q < NumPlayers ==> CountAt(s.deck, q, DeckSize) == CountAt(before, q, DeckSize)
    ensures s.declarer != 0 ==>
      CountAt(s.deck, OpponentsSkart, DeckSize) == CountAt(before, OpponentsSkart, DeckSize) + TalonSize
    ensures s.declarer == 0 ==>
      CountAt(s.deck, DeclarerSkart, DeckSize) == CountAt(before, DeclarerSkart, DeckSize) + TalonSize
  {
  }

  /** A SkartPhase object. */
  class SkartPhase {
    var deck: Deck
    var declarer: int
    var currentPlayer: int
    var cardsDiscarded: int

    function Value(): Discarding
      reads this
    {
      Discarding(deck, declarer, currentPlayer, cardsDiscarded)
    }

    constructor (deck0: Deck, declarer0: int)
      ensures Value() == StartDiscarding(deck0, declarer0)
    {
      deck := deck0;
      declarer := declarer0;
      currentPlayer := 0;
      cardsDiscarded := 0;
    }

    function CurrentPlayer(): int
      reads this
    {
      currentPlayer
    }

    /** The cards in the mover's hand, ascending. */
    method LegalActions() returns (actions: seq<int>)
      requires !PhaseOver()
      ensures actions == HandCards(deck, currentPlayer)
    {
      actions := [];
      for card := 0 to DeckSize
        invariant actions == CardsBelow(deck, currentPlayer, card)
      {
        if deck[card] == currentPlayer {
          actions := actions + [card];
        }
      }
    }

    method DoApplyAction(action: int)
      requires 0 <= action < DeckSize && deck[action] == currentPlayer
      requires !PhaseOver()
      modifies this
      ensures Value() == Apply(old(Value()), action)
    {
      if currentPlayer == declarer {
        deck := deck[action := DeclarerSkart];
      } else {
        deck := deck[action := OpponentsSkart];
      }
      cardsDiscarded := cardsDiscarded + 1;
    }

    predicate PhaseOver()
      reads this
    {
      DiscardingOver(Value())
    }

    predicate GameOver()
    {
      false
    }
  }
}
