/** The Talon phase of the older class-per-phase engine (talon.h). The
    quotas and the draws are those of the current engine as written,
    including the first receiver being the declarer even when the
    declarer is owed nothing; the talon cards are collected without
    checking that there are six of them. */
module SnapshotTalon {
  import opened Cards
  import opened TarokRecords
  import opened Decks
  import TalonRules
  import TarokEngine
  import SnapshotBidding

  /** The fields of a DealTalonPhase object. talonCards holds the slots
      the constructor filled, in order. */
  datatype Draw = Draw(
    deck: Deck,
    currentPlayer: int,
    talonCards: seq<int>,
    talonTaken: TalonSlots,
    cardsToTake: IntQuad,
    talonTakenCount: int,
    declarer: int)

  const NoneTaken: TalonSlots := [false, false, false, false, false, false]

  /** The constructor: quotas from the winning bid, the declarer as first
      receiver, and the talon cards in ascending order. */
  function StartDraw(deck: Deck, d: int, bid: int): Draw
    requires 0 <= d < NumPlayers
  {
    Draw(deck, d, CardsBelow(deck, Talon, DeckSize), NoneTaken, TalonRules.TalonQuotas(d, bid), 0, d)
  }

  predicate DrawOver(s: Draw)
  {
    s.currentPlayer == TerminalPlayerId
  }

  /** DoApplyAction: the card in slot action goes to the receiver, whose
      quota drops by one; after six draws the phase ends, and otherwise
      the turn passes on when the receiver is owed exactly nothing. The
      slot must have been filled by the constructor. */
  function Apply(s: Draw, action: int): Draw
    requires 0 <= action < TalonSize && !s.talonTaken[action]
    requires !DrawOver(s) && 0 <= s.currentPlayer < NumPlayers
    requires action < |s.talonCards| && 0 <= s.talonCards[action] < DeckSize
  {
    var cur := s.currentPlayer;
    var quotas := s.cardsToTake[cur := s.cardsToTake[cur] - 1];
    var count := s.talonTakenCount + 1;
    s.(deck := s.deck[s.talonCards[action] := cur],
       currentPlayer := TalonRules.NextReceiver(cur, quotas, count),
       talonTaken := s.talonTaken[action := true],
       cardsToTake := quotas,
       talonTakenCount := count)
  }

  /** A draw of the older class does what a draw of the current engine
      does. */
  lemma DrawMatchesEngine(g: Game, action: int)
    requires 0 <= action < TalonSize && !g.talon.talonTaken[action]
    requires !TalonRules.TalonPhaseOver(g) && 0 <= g.talon.currentPlayer < NumPlayers
    requires |g.talon.talonCards| == TalonSize
    requires 0 <= g.talon.talonCards[action] < DeckSize
    ensures var t := g.talon;
      var h := TalonRules.TalonDoApplyAction(g, action);
      Apply(Draw(g.data.deck, t.currentPlayer, t.talonCards, t.talonTaken, t.cardsToTake,
                 t.talonTakenCount, g.data.declarer), action)
      == Draw(h.data.deck, h.talon.currentPlayer, h.talon.talonCards, h.talon.talonTaken,
              h.talon.cardsToTake, h.talon.talonTakenCount, g.data.declarer)
  {
  }

  /** A declarer owed nothing (a winning bid of 0, or below 0, which this
      auction can reach) stays the receiver: every card drawn so far went
      to it, and it owes one more card with each draw. */
  predicate OwedNothingInv(s: Draw, bid: int)
  {
    var d := s.declarer;
    && 0 <= d < NumPlayers && bid <= 0
    && |s.talonCards| == TalonSize && StrictlyAscending(s.talonCards)
    && (forall i :: 0 <= i < TalonSize ==> 0 <= s.talonCards[i] < DeckSize)
    && s.talonTakenCount == TalonRules.NumTaken(s.talonTaken, TalonSize)
    && (DrawOver(s) <==> s.talonTakenCount == TalonSize)
    && (!DrawOver(s) ==> s.currentPlayer == d)
    && s.cardsToTake[d] == bid - s.talonTakenCount
    && (forall i :: 0 <= i < TalonSize && s.talonTaken[i] ==> s.deck[s.talonCards[i]] == d)
  }

  lemma StartOwedNothing(deck: Deck, d: int, bid: int)
    requires 0 <= d < NumPlayers && bid <= 0
    requires CountAt(deck, Talon, DeckSize) == TalonSize
    ensures OwedNothingInv(StartDraw(deck, d, bid), bid)
  {
    CountIsHandSize(deck, Talon, DeckSize);
    var cards := CardsBelow(deck, Talon, DeckSize);
    assert forall i :: 0 <= i < TalonSize ==> cards[i] in cards;
  }

  lemma OwedNothingStep(s: Draw, bid: int, action: int)
    requires OwedNothingInv(s, bid) && !DrawOver(s)
    requires 0 <= action < TalonSize && !s.talonTaken[action]
    ensures OwedNothingInv(Apply(s, action), bid)
  {
    TalonRules.TakeOneSlot(s.talonTaken, action, TalonSize);
    var t := Apply(s, action);
    forall i | 0 <= i < TalonSize && t.talonTaken[i]
      ensures t.deck[t.talonCards[i]] == s.declarer
    {
      if i != action {
        assert s.talonCards[i] != s.talonCards[action];
      }
    }
  }

  /** The discrepancy: when the phase ends all six talon cards are in the
      declarer's hand, though the quotas owe every other seat at least
      two. */
  lemma OwedNothingEnd(s: Draw, bid: int)
    requires OwedNothingInv(s, bid) && DrawOver(s)
    ensures forall i :: 0 <= i < TalonSize ==> s.deck[s.talonCards[i]] == s.declarer
    ensures forall p :: 0 <= p < NumPlayers && p != s.declarer ==> TalonRules.Quota(s.declarer, bid, p) >= 2
  {
    TalonRules.TakenAndUntaken(s.talonTaken, TalonSize);
    var untaken := TalonRules.UntakenSlots(s.talonTaken, TalonSize);
    assert untaken == [];
    forall i | 0 <= i < TalonSize
      ensures s.talonTaken[i]
    {
      assert i !in untaken;
    }
  }

  /** A DealTalonPhase object. */
  class DealTalonPhase {
    var deck: Deck
    var currentPlayer: int
    var talonCards: seq<int>
    var talonTaken: TalonSlots
    var cardsToTake: IntQuad
    var talonTakenCount: int
    var declarer: int

    function Value(): Draw
      reads this
    {
      Draw(deck, currentPlayer, talonCards, talonTaken, cardsToTake, talonTakenCount, declarer)
    }

    /** Takes the deck and the auction's result. The talon array has six
        slots, so more than six talon cards would write past its end. */
    constructor (deck0: Deck, bidding: SnapshotBidding.BiddingPhase)
      requires bidding.PhaseOver() && bidding.winningBidder.Some?
      requires 0 <= bidding.winningBidder.value < NumPlayers
      requires CountAt(deck0, Talon, DeckSize) <= TalonSize
      ensures Value() == StartDraw(deck0, bidding.GetDeclarer(), bidding.GetWinningBid())
    {
      var d := bidding.GetDeclarer();
      deck := deck0;
      declarer := d;
      var quotas := TarokEngine.TarokState.ShareTalon(d, bidding.GetWinningBid());
      cardsToTake := quotas;
      currentPlayer := d;
      var cards := [];
      for card := 0 to DeckSize
        invariant cards == CardsBelow(deck0, Talon, card)
      {
        if deck0[card] == Talon {
          cards := cards + [card];
        }
      }
      talonCards := cards;
      talonTaken := NoneTaken;
      talonTakenCount := 0;
    }

    predicate PhaseOver()
      reads this
    {
      DrawOver(Value())
    }

    /** Chance draws until the phase is over. */
    function CurrentPlayer(): int
      reads this
    {
      if PhaseOver() then TerminalPlayerId else ChancePlayerId
    }

    method LegalActions() returns (actions: seq<int>)
      requires !PhaseOver()
      ensures actions == TalonRules.UntakenSlots(talonTaken, TalonSize)
    {
      actions := [];
      for i := 0 to TalonSize
        invariant actions == TalonRules.UntakenSlots(talonTaken, i)
      {
        if !talonTaken[i] {
          actions := actions + [i];
        }
      }
    }

    method DoApplyAction(action: int)
      requires 0 <= action < TalonSize && !talonTaken[action]
      requires !PhaseOver() && 0 <= currentPlayer < NumPlayers
      requires action < |talonCards| && 0 <= talonCards[action] < DeckSize
      modifies this
      ensures Value() == Apply(old(Value()), action)
    {
      talonTaken := talonTaken[action := true];
      deck := deck[talonCards[action] := currentPlayer];
      talonTakenCount := talonTakenCount + 1;
      cardsToTake := cardsToTake[currentPlayer := cardsToTake[currentPlayer] - 1];
      if talonTakenCount == TalonSize {
        currentPlayer := TerminalPlayerId;
      } else if cardsToTake[currentPlayer] == 0 {
        currentPlayer := (currentPlayer + 1) % NumPlayers;
      }
    }
  }
}
