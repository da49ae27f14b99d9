/** Queries over the deck array: which cards lie at a location, and how
    many (the loops of PlayerHand, StartSkartPhase, StartAnnouncementsPhase
    and the LegalActions filters all scan the deck this way). */
module Decks {
  import opened Cards

  predicate StrictlyAscending(s: seq<int>)
  {
    forall i, j :: 0 <= i < j < |s| ==> s[i] < s[j]
  }

  /** The cards in p's hand, ascending (the result of PlayerHand). */
  function HandCards(deck: Deck, p: int): seq<int>
  {
    CardsBelow(deck, p, DeckSize)
  }

  /** PlayerHoldsCard: the card lies in p's hand. */
  predicate PlayerHoldsCard(deck: Deck, p: int, card: int)
    requires 0 <= card < DeckSize
  {
    deck[card] == p
  }

  /** Number of cards c < hi located at loc. */
  function CountAt(deck: Deck, loc: int, hi: int): nat
    requires 0 <= hi <= DeckSize
  {
    if hi == 0 then 0
    else CountAt(deck, loc, hi - 1) + (if deck[hi - 1] == loc then 1 else 0)
  }

  /** The number of cards in a hand is the length of its card list. */
  lemma {:induction false} CountIsHandSize(deck: Deck, loc: int, hi: int)
    requires 0 <= hi <= DeckSize
    ensures CountAt(deck, loc, hi) == |CardsBelow(deck, loc, hi)|
    decreases hi
  {
    if hi > 0 {
      CountIsHandSize(deck, loc, hi - 1);
    }
  }

  /** The cards c < hi at loc, ascending. */
  function CardsBelow(deck: Deck, loc: int, hi: int): (cards: seq<int>)
    requires 0 <= hi <= DeckSize
    ensures forall c :: c in cards <==> 0 <= c < hi && deck[c] == loc
    ensures StrictlyAscending(cards)
    ensures forall i :: 0 <= i < |cards| ==> cards[i] < hi
  {
    if hi == 0 then []
    else if deck[hi - 1] == loc then CardsBelow(deck, loc, hi - 1) + [hi - 1]
    else CardsBelow(deck, loc, hi - 1)
  }

  /** Counting is unaffected by moving a card between two other locations,
      and moves exactly one card in or out of the locations involved. */
  lemma {:induction false} CountAfterMove(deck: Deck, card: int, to: int, loc: int, hi: int)
    requires 0 <= card < DeckSize && 0 <= hi <= DeckSize
    ensures var moved := deck[card := to];
      CountAt(moved, loc, hi) ==
        CountAt(deck, loc, hi)
        - (if card < hi && deck[card] == loc then 1 else 0)
        + (if card < hi && to == loc then 1 else 0)
    decreases hi
  {
    if hi > 0 {
      CountAfterMove(deck, card, to, loc, hi - 1);
    }
  }

  /** When every card below n lies in one of the four hands, the four hand
      counts add up to n. */
  lemma {:induction false} HandCountsSum(deck: Deck, n: int)
    requires 0 <= n <= DeckSize
    requires forall c :: 0 <= c < n ==> 0 <= deck[c] < NumPlayers
    ensures CountAt(deck, 0, n) + CountAt(deck, 1, n) + CountAt(deck, 2, n) + CountAt(deck, 3, n) == n
    decreases n
  {
    if n > 0 {
      HandCountsSum(deck, n - 1);
    }
  }

  /** Cards in lo..hi-1 that are not at loc leave the count unchanged. */
  lemma {:induction false} CountStable(deck: Deck, loc: int, lo: int, hi: int)
    requires 0 <= lo <= hi <= DeckSize
    requires forall c :: lo <= c < hi ==> deck[c] != loc
    ensures CountAt(deck, loc, hi) == CountAt(deck, loc, lo)
    decreases hi - lo
  {
    if hi > lo {
      CountStable(deck, loc, lo, hi - 1);
    }
  }

  /** A location holding no card at all has count 0. */
  lemma EmptyLocation(deck: Deck, loc: int)
    requires forall c :: 0 <= c < DeckSize ==> deck[c] != loc
    ensures CountAt(deck, loc, DeckSize) == 0
  {
    CountStable(deck, loc, 0, DeckSize);
  }

  /** Cards lo..hi-1 that all lie at loc add one each to its count. */
  lemma {:induction false} CountFull(deck: Deck, loc: int, lo: int, hi: int)
    requires 0 <= lo <= hi <= DeckSize
    requires forall c :: lo <= c < hi ==> deck[c] == loc
    ensures CountAt(deck, loc, hi) == CountAt(deck, loc, lo) + (hi - lo)
    decreases hi - lo
  {
    if hi > lo {
      CountFull(deck, loc, lo, hi - 1);
    }
  }
}
