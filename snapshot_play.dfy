/** The Play phase of the older class-per-phase engine (play.h). Its
    legal cards and its tricks follow the same rules as the current
    engine, but the first trick is led by seat 0 whoever the declarer is,
    and no trick and no taker is recorded. */
module SnapshotPlay {
  import opened Cards
  import opened TarokRecords
  import opened Decks
  import PlayRules
  import TarokEngine

  /** The fields of a PlayPhase object. */
  datatype Trickplay = Trickplay(
    deck: Deck,
    declarer: int,
    currentPlayer: int,
    trickCaller: int,
    trickCards: seq<int>,
    round: int)

  /** The constructor: seat 0 leads the first trick. */
  function StartTrickplay(deck: Deck, declarer: int): Trickplay
  {
    Trickplay(deck, declarer, 0, 0, [], 0)
  }

  predicate TrickplayOver(s: Trickplay)
  {
    s.round >= NumRounds
  }

  /** The trick cards are cards. */
  predicate TrickCardsValid(s: Trickplay)
  {
    forall i :: 0 <= i < |s.trickCards| ==> 0 <= s.trickCards[i] < DeckSize
  }

  /** The seat that takes a full trick: the leader unless a later card
      beats the kept one, else the seat that played the kept card,
      counting from the leader with C++'s remainder. */
  function Taker(s: Trickplay): int
    requires |s.trickCards| == NumPlayers && TrickCardsValid(s)
  {
    var k := PlayRules.KeptCard(s.trickCards, NumPlayers);
    if k == 0 then s.trickCaller else PlayRules.TruncatedRemainder(s.trickCaller + k, NumPlayers)
  }

  /** ResolveTrick: the taker leads next and receives the four cards in its
      won pile; the trick is cleared and the phase ends after the ninth. */
  function Resolve(s: Trickplay): Trickplay
    requires |s.trickCards| == NumPlayers && TrickCardsValid(s)
  {
    var w := Taker(s);
    var round := s.round + 1;
    s.(deck := PlayRules.MoveAll(s.deck, s.trickCards, WonCardsLocation(w)),
       trickCaller := w,
       currentPlayer := if round == NumRounds then TerminalPlayerId else w,
       trickCards := [],
       round := round)
  }

  /** DoApplyAction: the card, which must be in the mover's hand, goes on
      the trick; the fourth card resolves it, any other moves the turn on. */
  function Apply(s: Trickplay, action: int): Trickplay
    requires 0 <= action < DeckSize && s.deck[action] == s.currentPlayer
    requires !TrickplayOver(s) && |s.trickCards| < NumPlayers && TrickCardsValid(s)
  {
    var t := s.(deck := s.deck[action := CurrentTrick], trickCards := s.trickCards + [action]);
    if |t.trickCards| == NumPlayers then Resolve(t)
    else t.(currentPlayer := PlayRules.TruncatedRemainder(s.currentPlayer + 1, NumPlayers))
  }

  /** The same position in the current engine's record: the deck, the
      declarer and the play fields of s, everything else from base. */
  function AsGame(s: Trickplay, base: Game): Game
  {
    base.(data := base.data.(deck := s.deck, declarer := s.declarer),
          play := PlayState(s.currentPlayer, s.trickCaller, s.trickCards, s.round))
  }

  /** What of a current-engine record this class keeps. */
  function Project(g: Game): Trickplay
  {
    Trickplay(g.data.deck, g.data.declarer, g.play.currentPlayer, g.play.trickCaller,
              g.play.trickCards, g.play.round)
  }

  /** A record holding n placeholder tricks and takers, standing for the
      tricks this class does not record. */
  function Padded(n: int): (g: Game)
    ensures |g.data.tricks| == |g.data.trickWinners| == if n < 0 then 0 else n
  {
    var k := if n < 0 then 0 else n;
    NewGame().(data := NewGame().data.(tricks := seq(k, i => [0, 0, 0, 0]), trickWinners := seq(k, i => 0)))
  }

  /** The phase invariant: the current engine's Play invariant, with as
      many tricks taken as rounds played. */
  predicate TrickplayInv(s: Trickplay)
  {
    PlayRules.PlayInv(AsGame(s, Padded(s.round)))
  }

  /** The legal cards: those the current engine allows in the same
      position. */
  function TrickplayLegalActions(s: Trickplay): seq<int>
    requires !TrickplayOver(s)
    requires s.trickCards != [] ==> s.trickCards[0] < DeckSize
  {
    PlayRules.PlayLegalActions(AsGame(s, NewGame()))
  }

  /** The cards of the mover's hand that may follow the lead: the whole
      hand when leading, else those of the led suit. */
  function FollowCards(s: Trickplay): seq<int>
    requires TrickCardsValid(s)
  {
    FollowCardsBelow(s.deck, s.currentPlayer, s.trickCards, DeckSize)
  }

  /** The cards below hi that FollowCards collects. */
  function FollowCardsBelow(deck: Deck, p: int, trick: seq<int>, hi: int): seq<int>
    requires 0 <= hi <= DeckSize
    requires trick != [] ==> 0 <= trick[0] < DeckSize
  {
    if trick == [] then CardsBelow(deck, p, hi) else PlayRules.SuitCardsBelow(deck, p, CardSuit(trick[0]), hi)
  }

  lemma FollowNext(deck: Deck, p: int, trick: seq<int>, card: int)
    requires 0 <= card < DeckSize
    requires trick != [] ==> 0 <= trick[0] < DeckSize
    ensures FollowCardsBelow(deck, p, trick, card + 1)
      == FollowCardsBelow(deck, p, trick, card)
         + (if deck[card] == p && (trick == [] || CardSuit(trick[0]) == CardSuit(card)) then [card] else [])
  {
  }

  /** The legal cards in the terms of the three scans. */
  lemma LegalCardsUnfold(s: Trickplay)
    requires !TrickplayOver(s) && TrickCardsValid(s)
    ensures TrickplayLegalActions(s) ==
      if FollowCards(s) != [] then FollowCards(s)
      else if PlayRules.SuitCardsBelow(s.deck, s.currentPlayer, Tarok, DeckSize) != []
      then PlayRules.SuitCardsBelow(s.deck, s.currentPlayer, Tarok, DeckSize)
      else HandCards(s.deck, s.currentPlayer)
  {
    assert PlayRules.FollowingCards(AsGame(s, NewGame())) == FollowCards(s);
  }

  /** The first trick is led by seat 0, where the current engine lets the
      declarer lead. */
  lemma LeadsFromSeatZero(deck: Deck, g: Game)
    requires g.data.declarer != 0
    ensures StartTrickplay(deck, g.data.declarer).currentPlayer == 0
    ensures PlayRules.StartPlayPhase(g).play.currentPlayer == g.data.declarer
    ensures StartTrickplay(deck, g.data.declarer).currentPlayer
            != PlayRules.StartPlayPhase(g).play.currentPlayer
  {
  }

  /** Nine full hands and no card in the talon or on the trick: the phase
      starts in its invariant, whoever the declarer is. */
  lemma StartTrickplayInv(deck: Deck, declarer: int)
    requires forall p :: 0 <= p < NumPlayers ==> CountAt(deck, p, DeckSize) == PlayerHandSize
    requires forall c :: 0 <= c < DeckSize ==> deck[c] != Talon && deck[c] != CurrentTrick
    ensures TrickplayInv(StartTrickplay(deck, declarer))
  {
  }

  /** A play of the older class does to the deck, the turn, the trick and
      the round what a play of the current engine does from a leader on a
      seat; only the engine records the trick and its taker. */
  lemma PlayMatchesEngine(s: Trickplay, base: Game, action: int)
    requires 0 <= action < DeckSize && s.deck[action] == s.currentPlayer
    requires !TrickplayOver(s) && |s.trickCards| < NumPlayers && TrickCardsValid(s)
    requires 0 <= s.trickCaller < NumPlayers
    ensures var h := PlayRules.PlayDoApplyAction(AsGame(s, base), action);
      && Project(h) == Apply(s, action)
      && h.data.tricks == base.data.tricks + (if |s.trickCards| == NumPlayers - 1 then [s.trickCards + [action]] else [])
  {
    var g := AsGame(s, base);
    var trick := s.trickCards + [action];
    if |trick| == NumPlayers {
      var h := g.(data := g.data.(deck := g.data.deck[action := CurrentTrick]),
                  play := g.play.(trickCards := trick));
      var t := s.(deck := s.deck[action := CurrentTrick], trickCards := trick);
      assert PlayRules.TrickWinner(h) == Taker(t);
    }
  }

  /** Every play keeps the invariant and takes the card out of the mover's
      hand. */
  lemma TrickplayStep(s: Trickplay, action: int)
    requires TrickplayInv(s) && !TrickplayOver(s)
    requires 0 <= action < DeckSize && s.deck[action] == s.currentPlayer
    ensures |s.trickCards| < NumPlayers && TrickCardsValid(s)
    ensures TrickplayInv(Apply(s, action))
    ensures Apply(s, action).deck[action] != s.currentPlayer
    ensures Apply(s, action).round == s.round + (if |s.trickCards| == NumPlayers - 1 then 1 else 0)
  {
    var g := AsGame(s, Padded(s.round));
    PlayRules.PlayStepKeepsInv(g, action);
    PlayMatchesEngine(s, Padded(s.round), action);
    var h := PlayRules.PlayDoApplyAction(g, action);
    var t := Apply(s, action);
    assert h == AsGame(t, h);
  }

  /** An unfinished phase always offers a legal card. */
  lemma TrickplayCanMove(s: Trickplay)
    requires TrickplayInv(s) && !TrickplayOver(s)
    ensures s.trickCards != [] ==> s.trickCards[0] < DeckSize
    ensures TrickplayLegalActions(s) != []
  {
    PlayRules.PlayCanMove(AsGame(s, Padded(s.round)));
  }

  /** When the phase ends every hand is empty and no one is to move. */
  lemma TrickplayEnds(s: Trickplay)
    requires TrickplayInv(s) && TrickplayOver(s)
    ensures s.currentPlayer == TerminalPlayerId && s.round == NumRounds
    ensures forall c :: 0 <= c < DeckSize ==> !IsHandLocation(s.deck[c])
  {
    PlayRules.PlayEndsAfterNineTricks(AsGame(s, Padded(s.round)));
  }

  /** The taker is the seat that played the card no other card of the
      trick beats, and it receives all four cards. */
  lemma ResolveRules(s: Trickplay)
    requires |s.trickCards| == NumPlayers && TrickCardsValid(s)
    requires 0 <= s.trickCaller < NumPlayers
    ensures var k := PlayRules.KeptCard(s.trickCards, NumPlayers);
      && 0 <= Taker(s) < NumPlayers
      && Taker(s) == (s.trickCaller + k) % NumPlayers
      && (forall j :: 0 <= j < NumPlayers ==> !CardBeats(s.trickCards[j], s.trickCards[k]))
      && (forall j :: 0 <= j < NumPlayers ==> Resolve(s).deck[s.trickCards[j]] == WonCardsLocation(Taker(s)))
  {
    PlayRules.KeptCardRules(s.trickCards, NumPlayers);
  }

  /** The cards below hi that the fallback scan keeps: the mover's
      taroks if it holds one, else its whole hand. */
  function FallbackCards(deck: Deck, p: int, hasTarok: bool, hi: int): seq<int>
    requires 0 <= hi <= DeckSize
  {
    if hasTarok then PlayRules.SuitCardsBelow(deck, p, Tarok, hi) else CardsBelow(deck, p, hi)
  }

  lemma FallbackNext(deck: Deck, p: int, hasTarok: bool, card: int)
    requires 0 <= card < DeckSize
    ensures FallbackCards(deck, p, hasTarok, card + 1)
      == FallbackCards(deck, p, hasTarok, card)
         + (if deck[card] == p && (!hasTarok || CardSuit(card) == Tarok) then [card] else [])
  {
  }

  /** A PlayPhase object. */
  class PlayPhase {
    var deck: Deck
    var declarer: int
    var currentPlayer: int
    var trickCaller: int
    var trickCards: seq<int>
    var round: int

    function Value(): Trickplay
      reads this
    {
      Trickplay(deck, declarer, currentPlayer, trickCaller, trickCards, round)
    }

    constructor (deck0: Deck, declarer0: int)
      ensures Value() == StartTrickplay(deck0, declarer0)
    {
      deck := deck0;
      declarer := declarer0;
      currentPlayer := 0;
      trickCaller := 0;
      trickCards := [];
      round := 0;
    }

    function CurrentPlayer(): int
      reads this
    {
      currentPlayer
    }

    predicate PhaseOver()
      reads this
    {
      TrickplayOver(Value())
    }

    predicate GameOver()
      reads this
    {
      PhaseOver()
    }

    /** The three scans: the cards that may follow the lead, else the
        taroks if the hand holds one, else the whole hand. */
    method LegalActions() returns (actions: seq<int>)
      requires !PhaseOver() && TrickCardsValid(Value())
      ensures actions == TrickplayLegalActions(Value())
    {
      LegalCardsUnfold(Value());
      actions := FollowScan();
      if actions != [] {
        return;
      }
      var hasTarok := HoldsTarok();
      actions := FallbackScan(hasTarok);
    }

    /** The cards of the mover's hand that may follow the lead. */
    method FollowScan() returns (actions: seq<int>)
      requires TrickCardsValid(Value())
      ensures actions == FollowCards(Value())
    {
      var cur := currentPlayer;
      actions := [];
      for card := 0 to DeckSize
        invariant actions == FollowCardsBelow(deck, cur, trickCards, card)
      {
        FollowNext(deck, cur, trickCards, card);
        if deck[card] == cur && (trickCards == [] || CardSuit(trickCards[0]) == CardSuit(card)) {
          actions := actions + [card];
        }
      }
    }

    /** Whether the mover holds a tarok, stopping at the first. */
    method HoldsTarok() returns (hasTarok: bool)
      ensures hasTarok <==> PlayRules.SuitCardsBelow(deck, currentPlayer, Tarok, DeckSize) != []
    {
      hasTarok := false;
      for card := 0 to DeckSize
        invariant !hasTarok
        invariant PlayRules.SuitCardsBelow(deck, currentPlayer, Tarok, card) == []
      {
        if deck[card] == currentPlayer && CardSuit(card) == Tarok {
          hasTarok := true;
          assert card in PlayRules.SuitCardsBelow(deck, currentPlayer, Tarok, DeckSize);
          break;
        }
      }
    }

    /** The mover's taroks when it holds one, else its whole hand. */
    method FallbackScan(hasTarok: bool) returns (actions: seq<int>)
      ensures actions == if hasTarok then PlayRules.SuitCardsBelow(deck, currentPlayer, Tarok, DeckSize)
                         else HandCards(deck, currentPlayer)
    {
      var cur := currentPlayer;
      actions := [];
      for card := 0 to DeckSize
        invariant actions == FallbackCards(deck, cur, hasTarok, card)
      {
        FallbackNext(deck, cur, hasTarok, card);
        if deck[card] == cur && (!hasTarok || CardSuit(card) == Tarok) {
          actions := actions + [card];
        }
      }
    }

    method DoApplyAction(action: int)
      requires 0 <= action < DeckSize && deck[action] == currentPlayer
      requires !PhaseOver() && |trickCards| < NumPlayers && TrickCardsValid(Value())
      modifies this
      ensures Value() == Apply(old(Value()), action)
    {
      deck := deck[action := CurrentTrick];
      trickCards := trickCards + [action];
      if |trickCards| == NumPlayers {
        ResolveTrick();
      } else {
        currentPlayer := PlayRules.TruncatedRemainder(currentPlayer + 1, NumPlayers);
      }
    }

    /** The scan for the card no later card beats, then the cards moved to
        the taker's pile. */
    method ResolveTrick()
      requires |trickCards| == NumPlayers && TrickCardsValid(Value())
      modifies this
      ensures Value() == Resolve(old(Value()))
    {
      var winner := FindTaker();
      var moved := TarokEngine.TarokState.MoveCards(deck, trickCards, WonCardsLocation(winner));
      deck := moved;
      trickCaller := winner;
      currentPlayer := winner;
      trickCards := [];
      round := round + 1;
      if round == NumRounds {
        currentPlayer := TerminalPlayerId;
      }
    }

    /** The seat of the kept card: the leader until a later card beats the
        card kept so far. */
    method FindTaker() returns (winner: int)
      requires |trickCards| == NumPlayers && TrickCardsValid(Value())
      ensures winner == Taker(Value())
    {
      winner := trickCaller;
      var winningCard := trickCards[0];
      ghost var k := 0;
      for i := 1 to NumPlayers
        invariant 0 <= k < i
        invariant k == PlayRules.KeptCard(trickCards, i)
        invariant winningCard == trickCards[k]
        invariant winner == if k == 0 then trickCaller else PlayRules.TruncatedRemainder(trickCaller + k, NumPlayers)
      {
        var card := trickCards[i];
        if CardBeats(card, winningCard) {
          winningCard := card;
          winner := PlayRules.TruncatedRemainder(trickCaller + i, NumPlayers);
          k := i;
        }
      }
    }
  }
}
