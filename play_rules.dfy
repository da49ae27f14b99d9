/** The Play phase of phases.cc: nine tricks, the declarer leading the
    first; follow suit, else play a tarok, else anything; the card no other
    card of the trick beats takes the trick for the seat that played it. */
module PlayRules {
  import opened Cards
  import opened TarokRecords
  import opened Decks

  /** StartPlayPhase: the declarer leads, no trick has been played. */
  function StartPlayPhase(g: Game): (h: Game)
    ensures h.play.currentPlayer == g.data.declarer && h.play.trickCaller == g.data.declarer
    ensures h.play.trickCards == [] && h.play.round == 0
    ensures h.data == g.data.(tricks := [], trickWinners := [])
  {
    g.(play := DefaultPlay.(currentPlayer := g.data.declarer, trickCaller := g.data.declarer),
       data := g.data.(tricks := [], trickWinners := []))
  }

  function PlayCurrentPlayer(g: Game): int
  {
    g.play.currentPlayer
  }

  predicate PlayPhaseOver(g: Game)
  {
    g.play.round >= NumRounds
  }

  predicate PlayGameOver(g: Game)
  {
    PlayPhaseOver(g)
  }

  /** The cards c < hi of the given suit in p's hand, ascending. */
  function SuitCardsBelow(deck: Deck, p: int, suit: Suit, hi: int): (cards: seq<int>)
    requires 0 <= hi <= DeckSize
    ensures forall c :: c in cards <==> 0 <= c < hi && deck[c] == p && CardSuit(c) == suit
    ensures StrictlyAscending(cards)
    ensures forall i :: 0 <= i < |cards| ==> cards[i] < hi
  {
    if hi == 0 then []
    else if deck[hi - 1] == p && CardSuit(hi - 1) == suit then SuitCardsBelow(deck, p, suit, hi - 1) + [hi - 1]
    else SuitCardsBelow(deck, p, suit, hi - 1)
  }

  /** The cards the first scan collects: the whole hand when leading,
      else the hand's cards of the led suit. */
  function FollowingCards(g: Game): seq<int>
    requires g.play.trickCards != [] ==> g.play.trickCards[0] < DeckSize
  {
    if g.play.trickCards == [] then HandCards(g.data.deck, g.play.currentPlayer)
    else SuitCardsBelow(g.data.deck, g.play.currentPlayer, CardSuit(g.play.trickCards[0]), DeckSize)
  }

  /** The cards the mover may play: those of the first scan if any, else
      the hand's taroks if it holds one, else the whole hand. */
  function PlayLegalActions(g: Game): seq<int>
    requires !PlayPhaseOver(g)
    requires g.play.trickCards != [] ==> g.play.trickCards[0] < DeckSize
  {
    var follow := FollowingCards(g);
    if follow != [] then follow
    else
      var taroks := SuitCardsBelow(g.data.deck, g.play.currentPlayer, Tarok, DeckSize);
      if taroks != [] then taroks
      else HandCards(g.data.deck, g.play.currentPlayer)
  }

  /** Whether p holds a card of the given suit. */
  predicate HoldsSuit(deck: Deck, p: int, suit: Suit)
  {
    exists c :: 0 <= c < DeckSize && deck[c] == p && CardSuit(c) == suit
  }

  /** The rule the legal cards obey: a card of the mover's hand that is
      the lead, or follows the led suit, or is a tarok played for want of
      the led suit, or any card when the hand holds neither; the list is
      ascending, and not empty whenever the hand is not. */
  lemma PlayLegalActionsRules(g: Game, c: int)
    requires !PlayPhaseOver(g)
    requires g.play.trickCards != [] ==> g.play.trickCards[0] < DeckSize
    ensures var cur := g.play.currentPlayer;
      var deck := g.data.deck;
      var trick := g.play.trickCards;
      && StrictlyAscending(PlayLegalActions(g))
      && (c in PlayLegalActions(g) <==>
            && 0 <= c < DeckSize && deck[c] == cur
            && (|| trick == []
                || CardSuit(c) == CardSuit(trick[0])
                || (!HoldsSuit(deck, cur, CardSuit(trick[0])) && CardSuit(c) == Tarok)
                || (!HoldsSuit(deck, cur, CardSuit(trick[0])) && !HoldsSuit(deck, cur, Tarok))))
      && (HandCards(deck, cur) != [] ==> PlayLegalActions(g) != [])
  {
    var cur := g.play.currentPlayer;
    var deck := g.data.deck;
    var trick := g.play.trickCards;
    if trick != [] {
      HoldsSuitIffCards(deck, cur, CardSuit(trick[0]));
      HoldsSuitIffCards(deck, cur, Tarok);
    }
    if HandCards(deck, cur) != [] {
      assert HandCards(deck, cur)[0] in HandCards(deck, cur);
    }
  }

  /** Holding a suit is having a card of it in the scan of the deck. */
  lemma HoldsSuitIffCards(deck: Deck, p: int, suit: Suit)
    ensures HoldsSuit(deck, p, suit) <==> SuitCardsBelow(deck, p, suit, DeckSize) != []
  {
    var cards := SuitCardsBelow(deck, p, suit, DeckSize);
    if HoldsSuit(deck, p, suit) {
      var w :| 0 <= w < DeckSize && deck[w] == p && CardSuit(w) == suit;
      assert w in cards;
    }
    if cards != [] {
      assert cards[0] in cards;
    }
  }

  /** The remainder of C++'s % operator, which truncates toward zero. */
  function TruncatedRemainder(a: int, n: int): (r: int)
    requires n > 0
    ensures a >= 0 ==> r == a % n
    ensures -n < r < n
  {
    if a >= 0 then a % n else -((-a) % n)
  }

  /** The position, within the first n cards of the trick, of the card the
      scan of ResolveTrick keeps: a later card replaces the kept one only
      when it beats it. */
  function KeptCard(trick: seq<int>, n: int): (k: int)
    requires 1 <= n <= |trick|
    requires forall i :: 0 <= i < |trick| ==> trick[i] < DeckSize
    ensures 0 <= k < n
  {
    if n == 1 then 0
    else
      var k := KeptCard(trick, n - 1);
      if CardBeats(trick[n - 1], trick[k]) then n - 1 else k
  }

  /** The card the scan keeps is beaten by no card of the trick; it is
      of the led suit or a tarok, and it is a tarok whenever the trick
      holds one. */
  lemma {:induction false} KeptCardRules(trick: seq<int>, n: int)
    requires 1 <= n <= |trick|
    requires forall i :: 0 <= i < |trick| ==> 0 <= trick[i] < DeckSize
    ensures var w := trick[KeptCard(trick, n)];
      && (forall j :: 0 <= j < n ==> !CardBeats(trick[j], w))
      && (CardSuit(w) == CardSuit(trick[0]) || CardSuit(w) == Tarok)
      && (forall j :: 0 <= j < n && CardSuit(trick[j]) == Tarok ==> CardSuit(w) == Tarok)
    decreases n
  {
    if n > 1 {
      KeptCardRules(trick, n - 1);
      var k := KeptCard(trick, n - 1);
      var last := trick[n - 1];
      if CardBeats(last, trick[k]) {
        forall j | 0 <= j < n
          ensures !CardBeats(trick[j], last)
        {
          CardBeatsIsStrictOrder(trick[j], last, trick[k]);
        }
      }
    }
  }

  /** The card that takes a trick: taroks first, the highest wins; with no
      tarok, the highest card of the led suit. */
  lemma TrickTakerIsHighest(trick: Trick)
    requires forall i :: 0 <= i < NumPlayers ==> 0 <= trick[i] < DeckSize
    requires forall i, j :: 0 <= i < j < NumPlayers ==> trick[i] != trick[j]
    ensures var w := trick[KeptCard(trick, NumPlayers)];
      && (forall j :: 0 <= j < NumPlayers && CardSuit(trick[j]) == CardSuit(w) ==> trick[j] <= w)
      && ((exists j :: 0 <= j < NumPlayers && CardSuit(trick[j]) == Tarok) ==> CardSuit(w) == Tarok)
      && ((forall j :: 0 <= j < NumPlayers ==> CardSuit(trick[j]) != Tarok) ==> CardSuit(w) == CardSuit(trick[0]))
  {
    KeptCardRules(trick, NumPlayers);
  }

  /** Every card of the list moved to loc. */
  function MoveAll(deck: Deck, cards: seq<int>, loc: int): (moved: Deck)
    requires forall i :: 0 <= i < |cards| ==> 0 <= cards[i] < DeckSize
    ensures forall c :: 0 <= c < DeckSize ==> moved[c] == if c in cards then loc else deck[c]
  {
    if cards == [] then deck
    else MoveAll(deck, cards[..|cards| - 1], loc)[cards[|cards| - 1] := loc]
  }

  /** The seat that takes the trick: the one that played the kept card,
      counting from the leader. */
  function TrickWinner(g: Game): int
    requires |g.play.trickCards| == NumPlayers
    requires forall i :: 0 <= i < NumPlayers ==> 0 <= g.play.trickCards[i] < DeckSize
  {
    TruncatedRemainder(g.play.trickCaller + KeptCard(g.play.trickCards, NumPlayers), NumPlayers)
  }

  /** ResolveTrick: the taker leads next and gets the four cards in its
      won pile; the trick and its taker are recorded; the game ends after
      the ninth. */
  function ResolveTrick(g: Game): (h: Game)
    requires |g.play.trickCards| == NumPlayers
    requires forall i :: 0 <= i < NumPlayers ==> 0 <= g.play.trickCards[i] < DeckSize
    ensures var w := TrickWinner(g);
      && h.data == g.data.(deck := MoveAll(g.data.deck, g.play.trickCards, WonCardsLocation(w)),
                           tricks := g.data.tricks + [g.play.trickCards],
                           trickWinners := g.data.trickWinners + [w])
      && h.play.trickCards == [] && h.play.trickCaller == w
      && h.play.round == g.play.round + 1
      && h.play.currentPlayer == (if g.play.round + 1 == NumRounds then TerminalPlayerId else w)
      && h.phase == g.phase
  {
    var w := TrickWinner(g);
    var trick: Trick := g.play.trickCards;
    var data := g.data.(deck := MoveAll(g.data.deck, trick, WonCardsLocation(w)),
                        tricks := g.data.tricks + [trick],
                        trickWinners := g.data.trickWinners + [w]);
    var round := g.play.round + 1;
    g.(data := data,
       play := g.play.(trickCaller := w, currentPlayer := if round == NumRounds then TerminalPlayerId else w,
                       trickCards := [], round := round))
  }

  /** PlayDoApplyAction: the card goes to the current trick; the fourth
      card resolves the trick, any other passes the turn one seat on. */
  function PlayDoApplyAction(g: Game, action: int): Game
    requires 0 <= action < DeckSize && g.data.deck[action] == g.play.currentPlayer
    requires !PlayPhaseOver(g)
    requires |g.play.trickCards| < NumPlayers
    requires forall i :: 0 <= i < |g.play.trickCards| ==> 0 <= g.play.trickCards[i] < DeckSize
  {
    var trick := g.play.trickCards + [action];
    var h := g.(data := g.data.(deck := g.data.deck[action := CurrentTrick]),
                play := g.play.(trickCards := trick));
    if |trick| == NumPlayers then ResolveTrick(h)
    else h.(play := h.play.(currentPlayer := TruncatedRemainder(g.play.currentPlayer + 1, NumPlayers)))
  }

  /** The Play invariant: the round counts the recorded tricks; the cards
      of the current trick are exactly the cards at the trick location,
      played one per seat from the leader; each seat holds nine cards less
      one per trick and one more if it has already played to this trick;
      no card is left in the talon. */
  predicate PlayInv(g: Game)
  {
    var s := g.play;
    var deck := g.data.deck;
    && 0 <= s.round <= NumRounds
    && |g.data.tricks| == s.round && |g.data.trickWinners| == s.round
    && 0 <= s.trickCaller < NumPlayers
    && |s.trickCards| < NumPlayers
    && (forall i :: 0 <= i < |s.trickCards| ==> 0 <= s.trickCards[i] < DeckSize)
    && (forall c :: 0 <= c < DeckSize ==> (deck[c] == CurrentTrick <==> c in s.trickCards))
    && (forall c :: 0 <= c < DeckSize ==> deck[c] != Talon)
    && (s.round == NumRounds ==> s.currentPlayer == TerminalPlayerId && s.trickCards == [])
    && (s.round < NumRounds ==> s.currentPlayer == (s.trickCaller + |s.trickCards|) % NumPlayers)
    && (forall p :: 0 <= p < NumPlayers ==>
          CountAt(deck, p, DeckSize) ==
            PlayerHandSize - s.round - (if Ahead(s.trickCaller, p) < |s.trickCards| then 1 else 0))
  }

  /** The skart leaves every hand with nine cards, none in the talon and
      none on the trick, and the declarer a seat: Play starts in its
      invariant. */
  lemma StartPlayInv(g: Game)
    requires 0 <= g.data.declarer < NumPlayers
    requires forall p :: 0 <= p < NumPlayers ==> CountAt(g.data.deck, p, DeckSize) == PlayerHandSize
    requires forall c :: 0 <= c < DeckSize ==> g.data.deck[c] != Talon && g.data.deck[c] != CurrentTrick
    ensures PlayInv(StartPlayPhase(g))
  {
  }

  /** Moving cards that lie neither at loc nor at to leaves the count at
      loc unchanged. */
  lemma {:induction false} MoveAllKeepsCount(deck: Deck, cards: seq<int>, to: int, loc: int)
    requires forall i :: 0 <= i < |cards| ==> 0 <= cards[i] < DeckSize && deck[cards[i]] != loc
    requires to != loc
    ensures CountAt(MoveAll(deck, cards, to), loc, DeckSize) == CountAt(deck, loc, DeckSize)
    decreases |cards|
  {
    if cards != [] {
      var rest := cards[..|cards| - 1];
      var last := cards[|cards| - 1];
      MoveAllKeepsCount(deck, rest, to, loc);
      var moved := MoveAll(deck, rest, to);
      CountAfterMove(moved, last, to, loc, DeckSize);
    }
  }

  /** Every play keeps the invariant, moves the round on by at most one,
      and takes the card out of the mover's hand onto the trick or into
      the taker's pile. */
  lemma PlayStepKeepsInv(g: Game, action: int)
    requires PlayInv(g) && !PlayPhaseOver(g)
    requires 0 <= action < DeckSize && g.data.deck[action] == g.play.currentPlayer
    ensures var h := PlayDoApplyAction(g, action);
      && PlayInv(h)
      && h.play.round == g.play.round + (if |g.play.trickCards| == NumPlayers - 1 then 1 else 0)
      && h.data.deck[action] != g.play.currentPlayer
  {
    if |g.play.trickCards| < NumPlayers - 1 {
      PlayPassesOn(g, action);
    } else {
      PlayResolves(g, action);
    }
  }

  /** The card leaves the mover's hand for the trick: the mover now
      counts as having played to it. */
  lemma PlacedCard(g: Game, action: int)
    requires PlayInv(g) && !PlayPhaseOver(g)
    requires 0 <= action < DeckSize && g.data.deck[action] == g.play.currentPlayer
    ensures var s := g.play;
      var deck' := g.data.deck[action := CurrentTrick];
      var trick := s.trickCards + [action];
      && s.round < NumRounds
      && (forall p :: 0 <= p < NumPlayers ==>
            CountAt(deck', p, DeckSize) ==
              PlayerHandSize - s.round - (if Ahead(s.trickCaller, p) < |trick| then 1 else 0))
      && (forall c :: 0 <= c < DeckSize ==> (deck'[c] == CurrentTrick <==> c in trick))
  {
    var s := g.play;
    var deck := g.data.deck;
    var cur := s.currentPlayer;
    var deck' := deck[action := CurrentTrick];
    var trick := s.trickCards + [action];
    assert Ahead(s.trickCaller, cur) == |s.trickCards|;
    forall p | 0 <= p < NumPlayers
      ensures CountAt(deck', p, DeckSize) ==
        PlayerHandSize - s.round - (if Ahead(s.trickCaller, p) < |trick| then 1 else 0)
    {
      CountAfterMove(deck, action, CurrentTrick, p, DeckSize);
      AheadOfNextSeat(s.trickCaller, cur);
    }
  }

  /** A card short of the fourth passes the turn one seat on. */
  lemma PlayPassesOn(g: Game, action: int)
    requires PlayInv(g) && !PlayPhaseOver(g) && |g.play.trickCards| < NumPlayers - 1
    requires 0 <= action < DeckSize && g.data.deck[action] == g.play.currentPlayer
    ensures var h := PlayDoApplyAction(g, action);
      && PlayInv(h) && h.play.round == g.play.round
      && h.data.deck[action] != g.play.currentPlayer
  {
    PlacedCard(g, action);
  }

  /** The fourth card resolves the trick: the four cards go to the
      taker's pile and every hand has one card fewer than at the lead. */
  lemma PlayResolves(g: Game, action: int)
    requires PlayInv(g) && !PlayPhaseOver(g) && |g.play.trickCards| == NumPlayers - 1
    requires 0 <= action < DeckSize && g.data.deck[action] == g.play.currentPlayer
    ensures var h := PlayDoApplyAction(g, action);
      && PlayInv(h) && h.play.round == g.play.round + 1
      && h.data.deck[action] != g.play.currentPlayer
  {
    PlacedCard(g, action);
    var deck' := g.data.deck[action := CurrentTrick];
    var trick := g.play.trickCards + [action];
    var h := g.(data := g.data.(deck := deck'), play := g.play.(trickCards := trick));
    var w := TrickWinner(h);
    assert 0 <= w < NumPlayers;
    forall p | 0 <= p < NumPlayers
      ensures CountAt(MoveAll(deck', trick, WonCardsLocation(w)), p, DeckSize) == CountAt(deck', p, DeckSize)
    {
      MoveAllKeepsCount(deck', trick, WonCardsLocation(w), p);
    }
  }

  /** The mover of an unfinished Play holds a card, so some card is
      always legal. */
  lemma PlayCanMove(g: Game)
    requires PlayInv(g) && !PlayPhaseOver(g)
    ensures PlayLegalActions(g) != []
  {
    var cur := g.play.currentPlayer;
    assert Ahead(g.play.trickCaller, cur) == |g.play.trickCards|;
    CountIsHandSize(g.data.deck, cur, DeckSize);
    PlayLegalActionsRules(g, 0);
  }

  /** A finished Play has recorded nine tricks and their takers, and every
      hand is empty. */
  lemma PlayEndsAfterNineTricks(g: Game)
    requires PlayInv(g) && PlayPhaseOver(g)
    ensures |g.data.tricks| == NumRounds && |g.data.trickWinners| == NumRounds
    ensures g.play.currentPlayer == TerminalPlayerId
    ensures forall c :: 0 <= c < DeckSize ==> !IsHandLocation(g.data.deck[c])
  {
    forall c | 0 <= c < DeckSize
      ensures !IsHandLocation(g.data.deck[c])
    {
      var p := g.data.deck[c];
      if IsHandLocation(p) {
        CountIsHandSize(g.data.deck, p, DeckSize);
        assert false;
      }
    }
  }
}
