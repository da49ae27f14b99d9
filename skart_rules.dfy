/** The Skart phase of the current engine (phases.cc): starting with the
    declarer, each player who drew talon cards discards down to nine, the
    declarer onto the declarer's skart and everybody else onto the
    opponents' skart. */
module SkartRules {
  import opened Cards
  import opened TarokRecords
  import opened Decks
  import opened TalonRules

  /** The four hand sizes StartSkartPhase counts. */
  function HandSizes(deck: Deck): (sizes: IntQuad)
    ensures forall p :: 0 <= p < NumPlayers ==> sizes[p] == CountAt(deck, p, DeckSize)
  {
    [CountAt(deck, 0, DeckSize), CountAt(deck, 1, DeckSize),
     CountAt(deck, 2, DeckSize), CountAt(deck, 3, DeckSize)]
  }

  /** Counts the hands; the first to discard is the first receiver of the
      talon, so in a solo the seat after the declarer. */
  function StartSkartPhase(g: Game): Game
    requires 0 <= g.data.declarer < NumPlayers
  {
    g.(skart := SkartState(TalonStart(g.data.declarer, g.data.winningBid), HandSizes(g.data.deck), 0))
  }

  /** StartSkartPhase as phases.cc:460-470 writes it: the declarer
      discards first even in a solo. */
  function StartSkartPhaseAsWritten(g: Game): Game
    requires 0 <= g.data.declarer < NumPlayers
  {
    g.(skart := SkartState(g.data.declarer, HandSizes(g.data.deck), 0))
  }

  lemma SkartAsWrittenDiffersOnlyInSolo(g: Game)
    requires 0 <= g.data.declarer < NumPlayers
    ensures StartSkartPhaseAsWritten(g) == StartSkartPhase(g) <==> g.data.winningBid != 0
  {
  }

  /** The as-written start after the talon as this engine deals it: in a
      solo the declarer holds nine yet discards first, and its discard
      takes it to eight while it keeps the turn. */
  lemma SkartAsWrittenSoloStart(g: Game, action: int)
    requires TalonInv(g) && TalonPhaseOver(g) && g.data.winningBid == 0
    requires 0 <= action < DeckSize && g.data.deck[action] == g.data.declarer
    ensures var h := StartSkartPhaseAsWritten(g);
      && h.skart.currentPlayer == g.data.declarer
      && h.skart.handSizes[g.data.declarer] == PlayerHandSize
      && SkartDoApplyAction(h, action).skart.handSizes[g.data.declarer] == PlayerHandSize - 1
      && SkartDoApplyAction(h, action).skart.currentPlayer == g.data.declarer
  {
    TalonEndsWithQuotas(g);
  }

  function SkartCurrentPlayer(g: Game): int
  {
    g.skart.currentPlayer
  }

  predicate SkartPhaseOver(g: Game)
  {
    g.skart.cardsDiscarded == TalonSize
  }

  /** Any card in the mover's hand may be discarded. */
  function SkartLegalActions(g: Game): seq<int>
    requires !SkartPhaseOver(g)
  {
    CardsBelow(g.data.deck, g.skart.currentPlayer, DeckSize)
  }

  /** The skart a player discards onto. */
  function SkartPile(g: Game, p: int): (pile: int)
    ensures pile == DeclarerSkart <==> p == g.data.declarer
    ensures pile == DeclarerSkart || pile == OpponentsSkart
  {
    if p == g.data.declarer then DeclarerSkart else OpponentsSkart
  }

  /** Discards a card; once the mover is down to nine the turn passes to
      the next seat, or ends if that seat's hand is empty. */
  function SkartDoApplyAction(g: Game, action: int): Game
    requires 0 <= action < DeckSize && g.data.deck[action] == g.skart.currentPlayer
    requires !SkartPhaseOver(g) && 0 <= g.skart.currentPlayer < NumPlayers
  {
    var k := g.skart;
    var cur := k.currentPlayer;
    var sizes := k.handSizes[cur := k.handSizes[cur] - 1];
    var next :=
      if sizes[cur] == PlayerHandSize then
        if sizes[NextSeat(cur)] == 0 then TerminalPlayerId else NextSeat(cur)
      else cur;
    g.(data := g.data.(deck := g.data.deck[action := SkartPile(g, cur)]),
       skart := SkartState(next, sizes, k.cardsDiscarded + 1))
  }

  /** Cards above nine in each hand. */
  function Excess(sizes: IntQuad): (e: IntQuad)
    ensures forall p :: 0 <= p < NumPlayers ==> e[p] == sizes[p] - PlayerHandSize
  {
    [sizes[0] - PlayerHandSize, sizes[1] - PlayerHandSize,
     sizes[2] - PlayerHandSize, sizes[3] - PlayerHandSize]
  }

  /** Discarding from one hand lowers that hand's excess by one. */
  lemma ExcessAfterDiscard(sizes: IntQuad, p: int)
    requires 0 <= p < NumPlayers
    ensures Excess(sizes[p := sizes[p] - 1]) == Excess(sizes)[p := Excess(sizes)[p] - 1]
  {
    var a, b := Excess(sizes[p := sizes[p] - 1]), Excess(sizes)[p := Excess(sizes)[p] - 1];
    assert a[0] == b[0] && a[1] == b[1] && a[2] == b[2] && a[3] == b[3];
  }

  /** Every card is in a hand or a skart; the size fields count the hands;
      the declarer's skart holds what the declarer has discarded so far and
      the two skarts together every discarded card. */
  predicate SkartDeckAgrees(g: Game)
    requires 0 <= g.data.declarer < NumPlayers
  {
    var deck := g.data.deck;
    var k := g.skart;
    var d := g.data.declarer;
    && (forall c :: 0 <= c < DeckSize ==>
          0 <= deck[c] < NumPlayers || deck[c] == DeclarerSkart || deck[c] == OpponentsSkart)
    && (forall p :: 0 <= p < NumPlayers ==> k.handSizes[p] == CountAt(deck, p, DeckSize))
    && CountAt(deck, DeclarerSkart, DeckSize) == g.data.winningBid - Excess(k.handSizes)[d]
    && CountAt(deck, DeclarerSkart, DeckSize) + CountAt(deck, OpponentsSkart, DeckSize) == k.cardsDiscarded
  }

  /** The Skart invariant: the excesses play the part the talon quotas
      played, in the same seat order: the mover still has cards to shed,
      those before it are down to nine, those after it untouched. */
  predicate SkartInv(g: Game)
  {
    var d := g.data.declarer;
    var bid := g.data.winningBid;
    var e := Excess(g.skart.handSizes);
    && 0 <= d < NumPlayers && 0 <= bid <= 3
    && SkartDeckAgrees(g)
    && 0 <= g.skart.cardsDiscarded <= TalonSize
    && Sum4(e) + g.skart.cardsDiscarded == TalonSize
    && (SkartPhaseOver(g) ==> forall p :: 0 <= p < NumPlayers ==> e[p] == 0)
    && (!SkartPhaseOver(g) ==> ReceiverOrder(d, bid, g.skart.currentPlayer, e))
  }

  /** After the talon phase the Skart invariant holds from the start. */
  lemma StartSkartInv(g: Game)
    requires TalonInv(g) && TalonPhaseOver(g)
    ensures SkartInv(StartSkartPhase(g))
  {
    var d := g.data.declarer;
    var bid := g.data.winningBid;
    TalonEndsWithQuotas(g);
    StartSkartDeck(g.data.deck, d, bid);
    QuotasSumToSix(d, bid);
    StartOrder(d, bid);
    var h := StartSkartPhase(g);
    assert Excess(h.skart.handSizes) == TalonQuotas(d, bid);
    assert SkartDeckAgrees(h);
  }

  /** Hands holding nine cards plus their quotas, every card in a hand:
      each hand's excess is its quota and both skarts are empty. */
  lemma StartSkartDeck(deck: Deck, d: int, bid: int)
    requires 0 <= d < NumPlayers
    requires forall p :: 0 <= p < NumPlayers ==> CountAt(deck, p, DeckSize) == PlayerHandSize + Quota(d, bid, p)
    requires forall c :: 0 <= c < DeckSize ==> 0 <= deck[c] < NumPlayers
    ensures Excess(HandSizes(deck)) == TalonQuotas(d, bid)
    ensures CountAt(deck, DeclarerSkart, DeckSize) == 0 && CountAt(deck, OpponentsSkart, DeckSize) == 0
  {
    var e, q := Excess(HandSizes(deck)), TalonQuotas(d, bid);
    assert e[0] == q[0] && e[1] == q[1] && e[2] == q[2] && e[3] == q[3];
    EmptyLocation(deck, DeclarerSkart);
    EmptyLocation(deck, OpponentsSkart);
  }

  /** A discard moves one card from the mover's hand onto the mover's
      skart and nothing else. */
  lemma DiscardKeepsDeck(g: Game, action: int)
    requires SkartInv(g) && !SkartPhaseOver(g)
    requires action in SkartLegalActions(g)
    ensures var h := SkartDoApplyAction(g, action);
      var cur := g.skart.currentPlayer;
      && h.data.deck == g.data.deck[action := SkartPile(g, cur)]
      && SkartDeckAgrees(h)
      && Excess(h.skart.handSizes) == Excess(g.skart.handSizes)[cur := Excess(g.skart.handSizes)[cur] - 1]
  {
    var deck := g.data.deck;
    var cur := g.skart.currentPlayer;
    var pile := SkartPile(g, cur);
    var h := SkartDoApplyAction(g, action);
    var moved := deck[action := pile];
    assert deck[action] == cur;
    assert h.data.deck == moved;
    assert h.data.declarer == g.data.declarer && h.data.winningBid == g.data.winningBid;
    forall p | 0 <= p < NumPlayers
      ensures h.skart.handSizes[p] == CountAt(moved, p, DeckSize)
    {
      CountAfterMove(deck, action, pile, p, DeckSize);
    }
    CountAfterMove(deck, action, pile, DeclarerSkart, DeckSize);
    CountAfterMove(deck, action, pile, OpponentsSkart, DeckSize);
    var e, e' := Excess(g.skart.handSizes), Excess(h.skart.handSizes);
    ExcessAfterDiscard(g.skart.handSizes, cur);
    assert CountAt(moved, DeclarerSkart, DeckSize) == g.data.winningBid - e'[g.data.declarer];
    assert CountAt(moved, DeclarerSkart, DeckSize) + CountAt(moved, OpponentsSkart, DeckSize)
      == h.skart.cardsDiscarded;
  }

  /** Every discard keeps the invariant, and the turn never ends early
      through an empty hand. */
  lemma SkartStepKeepsInv(g: Game, action: int)
    requires SkartInv(g) && !SkartPhaseOver(g)
    requires action in SkartLegalActions(g)
    ensures SkartInv(SkartDoApplyAction(g, action))
    ensures 0 <= SkartDoApplyAction(g, action).skart.currentPlayer < NumPlayers
  {
    var k := g.skart;
    var cur := k.currentPlayer;
    var d, bid := g.data.declarer, g.data.winningBid;
    var e := Excess(k.handSizes);
    var e' := e[cur := e[cur] - 1];
    DiscardKeepsDeck(g, action);
    OrderAfterDraw(d, bid, cur, e, k.cardsDiscarded);
    PaidQuotas(d, bid, cur, e);
    var h := SkartDoApplyAction(g, action);
    assert Excess(h.skart.handSizes) == e';
    assert h.skart.cardsDiscarded == k.cardsDiscarded + 1;
    assert h.data.declarer == d && h.data.winningBid == bid;
    forall p | 0 <= p < NumPlayers
      ensures k.handSizes[p] - (if p == cur then 1 else 0) >= PlayerHandSize
    {
      assert e'[p] >= 0 && e[p] == k.handSizes[p] - PlayerHandSize;
    }
    SkartTurn(g, action);
    if !SkartPhaseOver(h) {
      assert h.skart.currentPlayer == NextReceiver(cur, e', k.cardsDiscarded + 1);
    }
  }

  /** No hand drops below nine during the phase, so the check for an
      empty next hand never fires: the turn moves on exactly when the
      mover is down to nine. */
  lemma SkartTurn(g: Game, action: int)
    requires 0 <= action < DeckSize && g.data.deck[action] == g.skart.currentPlayer
    requires !SkartPhaseOver(g) && 0 <= g.skart.currentPlayer < NumPlayers
    requires forall p :: 0 <= p < NumPlayers ==>
      g.skart.handSizes[p] - (if p == g.skart.currentPlayer then 1 else 0) >= PlayerHandSize
    ensures var cur := g.skart.currentPlayer;
      SkartDoApplyAction(g, action).skart.currentPlayer
        == if g.skart.handSizes[cur] - 1 == PlayerHandSize then NextSeat(cur) else cur
  {
    var cur := g.skart.currentPlayer;
    assert g.skart.handSizes[NextSeat(cur)] >= PlayerHandSize;
  }

  /** At the end of the phase every hand holds nine cards, the declarer's
      skart as many as the winning number and the opponents' skart the
      rest of the six. */
  lemma SkartEndsWithFullHands(g: Game)
    requires SkartInv(g) && SkartPhaseOver(g)
    ensures forall p :: 0 <= p < NumPlayers ==> CountAt(g.data.deck, p, DeckSize) == PlayerHandSize
    ensures CountAt(g.data.deck, DeclarerSkart, DeckSize) == g.data.winningBid
    ensures CountAt(g.data.deck, OpponentsSkart, DeckSize) == TalonSize - g.data.winningBid
  {
  }

  /** While the phase lasts the mover has a card to discard. */
  lemma SkartCanDiscard(g: Game)
    requires SkartInv(g) && !SkartPhaseOver(g)
    ensures |SkartLegalActions(g)| > PlayerHandSize
  {
    CountIsHandSize(g.data.deck, g.skart.currentPlayer, DeckSize);
  }
}
