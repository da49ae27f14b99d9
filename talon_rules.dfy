/** The Talon phase of the current engine (phases.cc): the declarer is
    owed as many talon cards as the winning number, the rest are shared
    out one at a time from the seat after the declarer, and chance hands
    the six talon cards to the receivers in turn. */
module TalonRules {
  import opened Cards
  import opened TarokRecords
  import opened Decks

  function Sum4(q: IntQuad): int
  {
    q[0] + q[1] + q[2] + q[3]
  }

  /** What StartTalonPhase's sharing loop gives seat p: the declarer d is
      owed bid cards; the 6 - bid others go round from the seat after d,
      so each other seat gets a third of them and the first (6 - bid) % 3
      seats after d one more. */
  function Quota(d: int, bid: int, p: int): int
    requires 0 <= d < NumPlayers && 0 <= p < NumPlayers
  {
    if p == d then bid
    else
      var rest := if bid < TalonSize then TalonSize - bid else 0;
      rest / 3 + (if Ahead(d, p) - 1 < rest % 3 then 1 else 0)
  }

  function TalonQuotas(d: int, bid: int): (q: IntQuad)
    requires 0 <= d < NumPlayers
    ensures forall p :: 0 <= p < NumPlayers ==> q[p] == Quota(d, bid, p)
  {
    [Quota(d, bid, 0), Quota(d, bid, 1), Quota(d, bid, 2), Quota(d, bid, 3)]
  }

  /** The state of the sharing loop: full rounds and part of a round
      handed out, each other seat owed full plus one if the partial round
      has reached it, and the turn on the seat part places after d. */
  predicate SharingInv(d: int, bid: int, quotas: IntQuad, remaining: int, player: int, full: int, part: int)
  {
    && 0 <= d < NumPlayers && 0 <= player < NumPlayers && 0 <= full && 0 <= part < 3
    && remaining == TalonSize - bid - (3 * full + part)
    && ((full == 0 && part == 0) || remaining >= 0)
    && (player == d ==> part == 0)
    && (player != d ==> Ahead(d, player) - 1 == part)
    && quotas[d] == bid
    && forall p :: 0 <= p < NumPlayers && p != d ==>
         quotas[p] == full + (if Ahead(d, p) - 1 < part then 1 else 0)
  }

  lemma SharingStart(d: int, bid: int)
    requires 0 <= d < NumPlayers
    ensures SharingInv(d, bid, ZeroQuad[d := bid], TalonSize - bid, (d + 1) % NumPlayers, 0, 0)
  {
    AheadOfNextSeat(d, d);
  }

  /** One pass of the sharing loop: a seat other than d gets one more
      card, and the turn moves on. */
  lemma SharingStep(d: int, bid: int, quotas: IntQuad, remaining: int, player: int, full: int, part: int,
                    quotas': IntQuad, remaining': int, player': int, full': int, part': int)
    requires SharingInv(d, bid, quotas, remaining, player, full, part) && remaining > 0
    requires player' == (player + 1) % NumPlayers
    requires player != d ==>
      && quotas' == quotas[player := quotas[player] + 1] && remaining' == remaining - 1
      && full' == (if part == 2 then full + 1 else full) && part' == (if part == 2 then 0 else part + 1)
    requires player == d ==>
      quotas' == quotas && remaining' == remaining && full' == full && part' == part
    ensures SharingInv(d, bid, quotas', remaining', player', full', part')
  {
    AheadOfNextSeat(d, player);
    if player != d {
      forall p | 0 <= p < NumPlayers && p != d
        ensures quotas'[p] == full' + (if Ahead(d, p) - 1 < part' then 1 else 0)
      {
        if p != player {
          assert quotas'[p] == quotas[p];
        }
      }
    }
  }

  /** When the loop stops, the counters are those of TalonQuotas. */
  lemma SharingDone(d: int, bid: int, quotas: IntQuad, remaining: int, player: int, full: int, part: int)
    requires SharingInv(d, bid, quotas, remaining, player, full, part) && remaining <= 0
    ensures quotas == TalonQuotas(d, bid)
  {
    var rest := if bid < TalonSize then TalonSize - bid else 0;
    assert rest == 3 * full + part;
    assert rest / 3 == full && rest % 3 == part;
    var q := TalonQuotas(d, bid);
    assert quotas[0] == q[0] && quotas[1] == q[1] && quotas[2] == q[2] && quotas[3] == q[3];
  }

  /** The quotas share out exactly the six talon cards. */
  lemma QuotasSumToSix(d: int, bid: int)
    requires 0 <= d < NumPlayers && 0 <= bid <= TalonSize
    ensures Sum4(TalonQuotas(d, bid)) == TalonSize
  {
    var q := TalonQuotas(d, bid);
    var rest := TalonSize - bid;
    if d == 0 {
      assert q[1] + q[2] + q[3] == rest / 3 * 3 + rest % 3;
    } else if d == 1 {
      assert q[2] + q[3] + q[0] == rest / 3 * 3 + rest % 3;
    } else if d == 2 {
      assert q[3] + q[0] + q[1] == rest / 3 * 3 + rest % 3;
    } else {
      assert q[0] + q[1] + q[2] == rest / 3 * 3 + rest % 3;
    }
  }

  /** The other seats' quotas differ by at most one, a seat nearer the
      declarer's left never getting fewer than one further on; below a
      solo nobody but the declarer goes without, and nobody is owed a
      negative number. */
  lemma QuotasAreBalanced(d: int, bid: int, p: int, q: int)
    requires 0 <= d < NumPlayers && 0 <= bid <= TalonSize
    requires 0 <= p < NumPlayers && 0 <= q < NumPlayers && p != d && q != d
    ensures (TalonSize - bid) / 3 <= Quota(d, bid, p) <= (TalonSize - bid) / 3 + 1
    ensures Ahead(d, p) < Ahead(d, q) ==> Quota(d, bid, p) >= Quota(d, bid, q)
    ensures bid <= 3 ==> Quota(d, bid, p) >= 1
  {
  }

  lemma QuotaNonNegative(d: int, bid: int, p: int)
    requires 0 <= d < NumPlayers && 0 <= bid && 0 <= p < NumPlayers
    ensures Quota(d, bid, p) >= 0
    ensures bid <= 3 && Quota(d, bid, p) == 0 ==> p == d && bid == 0
  {
  }

  /** The first receiver: the declarer, or in a solo (bid 0, nothing owed
      to the declarer) the seat after it. */
  function TalonStart(d: int, bid: int): (s: int)
    requires 0 <= d < NumPlayers
    ensures 0 <= s < NumPlayers
    ensures 0 <= bid <= 3 ==> Quota(d, bid, s) > 0
    ensures s != d ==> s == NextSeat(d) && Quota(d, bid, d) == 0
  {
    if bid == 0 then NextSeat(d) else d
  }

  /** Sets up the quotas, the receiver and the list of talon cards. */
  function StartTalonPhase(g: Game): Game
    requires 0 <= g.data.declarer < NumPlayers
    requires CountAt(g.data.deck, Talon, DeckSize) == TalonSize
  {
    var d := g.data.declarer;
    var bid := g.data.winningBid;
    g.(talon := DefaultTalon.(currentPlayer := TalonStart(d, bid),
                             talonCards := CardsBelow(g.data.deck, Talon, DeckSize),
                             cardsToTake := TalonQuotas(d, bid)))
  }

  /** StartTalonPhase as phases.cc:382-409 writes it: the declarer is the
      first receiver even when it is owed nothing. */
  function StartTalonPhaseAsWritten(g: Game): Game
    requires 0 <= g.data.declarer < NumPlayers
    requires CountAt(g.data.deck, Talon, DeckSize) == TalonSize
  {
    StartTalonPhase(g).(talon := StartTalonPhase(g).talon.(currentPlayer := g.data.declarer))
  }

  /** The two differ only in a solo. */
  lemma AsWrittenDiffersOnlyInSolo(g: Game)
    requires 0 <= g.data.declarer < NumPlayers
    requires CountAt(g.data.deck, Talon, DeckSize) == TalonSize
    ensures StartTalonPhaseAsWritten(g) == StartTalonPhase(g) <==> g.data.winningBid != 0
  {
  }

  predicate TalonPhaseOver(g: Game)
  {
    g.talon.currentPlayer == TerminalPlayerId
  }

  /** Chance picks the talon cards. */
  function TalonCurrentPlayer(g: Game): (p: int)
    ensures p == TerminalPlayerId || p == ChancePlayerId
    ensures p == TerminalPlayerId <==> TalonPhaseOver(g)
  {
    if TalonPhaseOver(g) then TerminalPlayerId else ChancePlayerId
  }

  /** The talon slots below hi not yet taken, ascending. */
  function UntakenSlots(taken: TalonSlots, hi: int): (slots: seq<int>)
    requires 0 <= hi <= TalonSize
    ensures forall i :: i in slots <==> 0 <= i < hi && !taken[i]
    ensures StrictlyAscending(slots)
    ensures forall k :: 0 <= k < |slots| ==> slots[k] < hi
  {
    if hi == 0 then []
    else UntakenSlots(taken, hi - 1) + (if taken[hi - 1] then [] else [hi - 1])
  }

  /** The number of slots below hi taken. */
  function NumTaken(taken: TalonSlots, hi: int): nat
    requires 0 <= hi <= TalonSize
  {
    if hi == 0 then 0 else NumTaken(taken, hi - 1) + (if taken[hi - 1] then 1 else 0)
  }

  lemma {:induction false} TakenAndUntaken(taken: TalonSlots, hi: int)
    requires 0 <= hi <= TalonSize
    ensures NumTaken(taken, hi) + |UntakenSlots(taken, hi)| == hi
    decreases hi
  {
    if hi > 0 {
      TakenAndUntaken(taken, hi - 1);
    }
  }

  lemma {:induction false} TakeOneSlot(taken: TalonSlots, a: int, hi: int)
    requires 0 <= a < TalonSize && !taken[a] && 0 <= hi <= TalonSize
    ensures NumTaken(taken[a := true], hi) == NumTaken(taken, hi) + (if a < hi then 1 else 0)
    decreases hi
  {
    if hi > 0 {
      TakeOneSlot(taken, a, hi - 1);
    }
  }

  function TalonLegalActions(g: Game): seq<int>
    requires !TalonPhaseOver(g)
  {
    UntakenSlots(g.talon.talonTaken, TalonSize)
  }

  /** The receiver after a draw: nobody after the sixth card, the next
      seat once the receiver is owed exactly nothing, else the same one. */
  function NextReceiver(cur: int, quotas: IntQuad, count: int): int
    requires 0 <= cur < NumPlayers
  {
    if count == TalonSize then TerminalPlayerId
    else if quotas[cur] == 0 then NextSeat(cur)
    else cur
  }

  /** Chance hands the talon card in slot action to the receiver, whose
      quota drops by one; the phase ends after the sixth card, and
      otherwise the turn passes on when the receiver's quota reaches
      exactly zero. */
  function TalonDoApplyAction(g: Game, action: int): Game
    requires 0 <= action < TalonSize && !g.talon.talonTaken[action]
    requires !TalonPhaseOver(g) && 0 <= g.talon.currentPlayer < NumPlayers
    requires |g.talon.talonCards| == TalonSize
    requires 0 <= g.talon.talonCards[action] < DeckSize
  {
    var t := g.talon;
    var cur := t.currentPlayer;
    var quotas := t.cardsToTake[cur := t.cardsToTake[cur] - 1];
    var count := t.talonTakenCount + 1;
    var next := NextReceiver(cur, quotas, count);
    g.(data := g.data.(deck := g.data.deck[t.talonCards[action] := cur]),
       talon := t.(currentPlayer := next, talonTaken := t.talonTaken[action := true],
                   cardsToTake := quotas, talonTakenCount := count))
  }

  /** The slots list the talon cards ascending; a slot is taken exactly
      when its card has left the talon, for a hand; every card is in a hand
      or the talon, and every talon card has a slot. */
  predicate SlotsAgree(g: Game)
  {
    var t := g.talon;
    var deck := g.data.deck;
    && |t.talonCards| == TalonSize
    && StrictlyAscending(t.talonCards)
    && (forall i :: 0 <= i < TalonSize ==> 0 <= t.talonCards[i] < DeckSize)
    && (forall i :: 0 <= i < TalonSize ==>
          (t.talonTaken[i] <==> 0 <= deck[t.talonCards[i]] < NumPlayers)
          && (!t.talonTaken[i] <==> deck[t.talonCards[i]] == Talon))
    && (forall c :: 0 <= c < DeckSize ==> deck[c] == Talon || 0 <= deck[c] < NumPlayers)
    && (forall c :: 0 <= c < DeckSize && deck[c] == Talon ==> c in t.talonCards)
    && t.talonTakenCount == NumTaken(t.talonTaken, TalonSize)
  }

  /** The receiver order on plain quotas: cur is owed a card, the seats
      before it in order from the first receiver are paid off, and those
      after it are still owed their full quota. */
  predicate ReceiverOrder(d: int, bid: int, cur: int, q: IntQuad)
    requires 0 <= d < NumPlayers
  {
    var s := TalonStart(d, bid);
    && 0 <= cur < NumPlayers && q[cur] > 0
    && (forall p :: 0 <= p < NumPlayers && Ahead(s, p) < Ahead(s, cur) ==> q[p] == 0)
    && (forall p :: 0 <= p < NumPlayers && Ahead(s, p) > Ahead(s, cur) ==> q[p] == Quota(d, bid, p))
  }

  /** Each hand plus what its player is still owed is nine plus the
      player's quota. */
  predicate HandsAndQuotas(deck: Deck, q: IntQuad, d: int, bid: int)
    requires 0 <= d < NumPlayers
  {
    forall p :: 0 <= p < NumPlayers ==>
      CountAt(deck, p, DeckSize) + q[p] == PlayerHandSize + Quota(d, bid, p)
  }

  /** The Talon invariant, for a declarer whose winning number is 0..3:
      each hand plus what it is still owed is nine plus its quota; the
      receiver is the first seat, in order from the first receiver, still
      owed a card: those before it are paid off, those after it untouched;
      and the phase is over exactly when all six cards are handed out. */
  predicate TalonInv(g: Game)
  {
    var t := g.talon;
    var d := g.data.declarer;
    var bid := g.data.winningBid;
    && 0 <= d < NumPlayers && 0 <= bid <= 3
    && SlotsAgree(g)
    && HandsAndQuotas(g.data.deck, t.cardsToTake, d, bid)
    && Sum4(t.cardsToTake) + t.talonTakenCount == TalonSize
    && (TalonPhaseOver(g) <==> t.talonTakenCount == TalonSize)
    && (TalonPhaseOver(g) ==> forall p :: 0 <= p < NumPlayers ==> t.cardsToTake[p] == 0)
    && (!TalonPhaseOver(g) ==> ReceiverOrder(d, bid, t.currentPlayer, t.cardsToTake))
  }

  /** The deck Bidding hands over: nine cards in each hand, the other six
      in the talon. */
  predicate DealtDeck(deck: Deck)
  {
    && (forall c :: 0 <= c < DeckSize ==> deck[c] == Talon || 0 <= deck[c] < NumPlayers)
    && (forall p :: 0 <= p < NumPlayers ==> CountAt(deck, p, DeckSize) == PlayerHandSize)
    && CountAt(deck, Talon, DeckSize) == TalonSize
  }

  lemma StartTalonInv(g: Game)
    requires 0 <= g.data.declarer < NumPlayers && 0 <= g.data.winningBid <= 3
    requires DealtDeck(g.data.deck)
    ensures TalonInv(StartTalonPhase(g))
  {
    var d := g.data.declarer;
    var bid := g.data.winningBid;
    FreshSlotsAgree(StartTalonPhase(g));
    QuotasSumToSix(d, bid);
    StartOrder(d, bid);
  }

  /** A talon phase just set up: the slots list the talon cards, none
      taken yet. */
  lemma FreshSlotsAgree(g: Game)
    requires DealtDeck(g.data.deck)
    requires g.talon.talonCards == CardsBelow(g.data.deck, Talon, DeckSize)
    requires g.talon.talonTaken == DefaultTalon.talonTaken && g.talon.talonTakenCount == 0
    ensures SlotsAgree(g)
  {
    var cards := g.talon.talonCards;
    CountIsHandSize(g.data.deck, Talon, DeckSize);
    assert forall i :: 0 <= i < TalonSize ==> cards[i] in cards;
    NoneTakenYet(g.talon.talonTaken, TalonSize);
  }

  lemma {:induction false} NoneTakenYet(taken: TalonSlots, hi: int)
    requires 0 <= hi <= TalonSize
    requires forall i :: 0 <= i < TalonSize ==> !taken[i]
    ensures NumTaken(taken, hi) == 0
    decreases hi
  {
    if hi > 0 {
      NoneTakenYet(taken, hi - 1);
    }
  }

  /** The first receiver is owed a card and every seat is still owed its
      full quota. */
  lemma StartOrder(d: int, bid: int)
    requires 0 <= d < NumPlayers && 0 <= bid <= 3
    ensures ReceiverOrder(d, bid, TalonStart(d, bid), TalonQuotas(d, bid))
  {
    var s := TalonStart(d, bid);
    AheadOfNextSeat(s, s);
    assert Ahead(s, s) == 0;
    QuotaNonNegative(d, bid, s);
  }

  /** A draw moves the slot's card from the talon to the receiver. */
  lemma DrawKeepsSlotsAgree(g: Game, action: int)
    requires SlotsAgree(g)
    requires 0 <= action < TalonSize && !g.talon.talonTaken[action]
    requires !TalonPhaseOver(g) && 0 <= g.talon.currentPlayer < NumPlayers
    ensures var h := TalonDoApplyAction(g, action);
      && SlotsAgree(h)
      && h.data.deck == g.data.deck[g.talon.talonCards[action] := g.talon.currentPlayer]
      && g.data.deck[g.talon.talonCards[action]] == Talon
      && forall p :: 0 <= p < NumPlayers ==>
           CountAt(h.data.deck, p, DeckSize) ==
             CountAt(g.data.deck, p, DeckSize) + (if p == g.talon.currentPlayer then 1 else 0)
  {
    var t := g.talon;
    var card := t.talonCards[action];
    var h := TalonDoApplyAction(g, action);
    TakeOneSlot(t.talonTaken, action, TalonSize);
    forall i | 0 <= i < TalonSize && i != action
      ensures t.talonCards[i] != card
    {
      if i < action { assert t.talonCards[i] < card; } else { assert t.talonCards[i] > card; }
    }
    forall p | 0 <= p < NumPlayers
      ensures CountAt(h.data.deck, p, DeckSize) ==
        CountAt(g.data.deck, p, DeckSize) + (if p == t.currentPlayer then 1 else 0)
    {
      CountAfterMove(g.data.deck, card, t.currentPlayer, p, DeckSize);
    }
  }

  lemma ZeroSum(q: IntQuad)
    requires forall p :: 0 <= p < NumPlayers ==> q[p] >= 0
    requires Sum4(q) == 0
    ensures forall p :: 0 <= p < NumPlayers ==> q[p] == 0
  {
  }

  /** One draw from the receiver: after the sixth every quota is paid;
      otherwise the receiver keeps the turn while still owed, and when it
      is paid off the seat after it is next and is owed a card. */
  lemma OrderAfterDraw(d: int, bid: int, cur: int, q: IntQuad, count: int)
    requires 0 <= d < NumPlayers && 0 <= bid <= 3
    requires ReceiverOrder(d, bid, cur, q)
    requires Sum4(q) + count == TalonSize
    ensures count < TalonSize
    ensures var q' := q[cur := q[cur] - 1];
      var next := NextReceiver(cur, q', count + 1);
      && Sum4(q') + count + 1 == TalonSize
      && (next == TerminalPlayerId <==> count + 1 == TalonSize)
      && (next == TerminalPlayerId ==> forall p :: 0 <= p < NumPlayers ==> q'[p] == 0)
      && (next != TerminalPlayerId ==> ReceiverOrder(d, bid, next, q'))
  {
    var q' := q[cur := q[cur] - 1];
    PaidQuotas(d, bid, cur, q);
    if count + 1 == TalonSize {
      ZeroSum(q');
    } else if q'[cur] == 0 {
      OrderMovesOn(d, bid, cur, q);
    } else {
      assert forall p :: 0 <= p < NumPlayers && p != cur ==> q'[p] == q[p];
    }
  }

  /** Paying the receiver one card lowers the total owed by one and
      leaves no quota negative. */
  lemma PaidQuotas(d: int, bid: int, cur: int, q: IntQuad)
    requires 0 <= d < NumPlayers && 0 <= bid <= 3
    requires ReceiverOrder(d, bid, cur, q)
    ensures var q' := q[cur := q[cur] - 1];
      && Sum4(q') == Sum4(q) - 1
      && forall p :: 0 <= p < NumPlayers ==> q'[p] >= 0
  {
    var s := TalonStart(d, bid);
    var q' := q[cur := q[cur] - 1];
    forall p | 0 <= p < NumPlayers
      ensures q'[p] >= 0
    {
      QuotaNonNegative(d, bid, p);
      AheadOfNextSeat(s, p);
    }
  }

  /** A receiver paid off with cards still owed hands the turn to the
      seat after it, which is owed a card. */
  lemma OrderMovesOn(d: int, bid: int, cur: int, q: IntQuad)
    requires 0 <= d < NumPlayers && 0 <= bid <= 3
    requires ReceiverOrder(d, bid, cur, q) && q[cur] == 1
    requires forall p :: 0 <= p < NumPlayers ==> q[p] >= 0
    requires Sum4(q) > 1
    ensures ReceiverOrder(d, bid, NextSeat(cur), q[cur := 0])
  {
    var s := TalonStart(d, bid);
    var q' := q[cur := 0];
    var next := NextSeat(cur);
    AheadOfNextSeat(s, cur);
    assert Ahead(s, cur) < NumPlayers - 1;
    QuotaNonNegative(d, bid, next);
    assert q'[next] > 0;
    forall p | 0 <= p < NumPlayers && Ahead(s, p) < Ahead(s, next)
      ensures q'[p] == 0
    {
      AheadOfNextSeat(s, p);
    }
  }

  /** A card for the receiver, who is owed one fewer, keeps each hand
      plus what it is owed. */
  lemma HandsAndQuotasAfterDraw(deck: Deck, deck': Deck, q: IntQuad, cur: int, d: int, bid: int)
    requires 0 <= d < NumPlayers && 0 <= cur < NumPlayers
    requires HandsAndQuotas(deck, q, d, bid)
    requires forall p :: 0 <= p < NumPlayers ==>
      CountAt(deck', p, DeckSize) == CountAt(deck, p, DeckSize) + (if p == cur then 1 else 0)
    ensures HandsAndQuotas(deck', q[cur := q[cur] - 1], d, bid)
  {
    var q' := q[cur := q[cur] - 1];
    forall p | 0 <= p < NumPlayers
      ensures CountAt(deck', p, DeckSize) + q'[p] == PlayerHandSize + Quota(d, bid, p)
    {
      assert CountAt(deck, p, DeckSize) + q[p] == PlayerHandSize + Quota(d, bid, p);
    }
  }

  lemma DrawKeepsHandsAndQuotas(g: Game, action: int)
    requires SlotsAgree(g) && 0 <= g.data.declarer < NumPlayers
    requires HandsAndQuotas(g.data.deck, g.talon.cardsToTake, g.data.declarer, g.data.winningBid)
    requires 0 <= action < TalonSize && !g.talon.talonTaken[action]
    requires !TalonPhaseOver(g) && 0 <= g.talon.currentPlayer < NumPlayers
    ensures var h := TalonDoApplyAction(g, action);
      HandsAndQuotas(h.data.deck, h.talon.cardsToTake, g.data.declarer, g.data.winningBid)
  {
    var t := g.talon;
    var h := TalonDoApplyAction(g, action);
    DrawKeepsSlotsAgree(g, action);
    HandsAndQuotasAfterDraw(g.data.deck, h.data.deck, t.cardsToTake, t.currentPlayer,
                            g.data.declarer, g.data.winningBid);
  }

  /** The turn part of the invariant after a draw. */
  lemma DrawKeepsReceiverOrder(g: Game, action: int)
    requires 0 <= g.data.declarer < NumPlayers && 0 <= g.data.winningBid <= 3
    requires 0 <= action < TalonSize && !g.talon.talonTaken[action]
    requires !TalonPhaseOver(g) && |g.talon.talonCards| == TalonSize
    requires 0 <= g.talon.talonCards[action] < DeckSize
    requires ReceiverOrder(g.data.declarer, g.data.winningBid, g.talon.currentPlayer, g.talon.cardsToTake)
    requires Sum4(g.talon.cardsToTake) + g.talon.talonTakenCount == TalonSize
    ensures var h := TalonDoApplyAction(g, action);
      var q := h.talon.cardsToTake;
      && Sum4(q) + h.talon.talonTakenCount == TalonSize
      && (TalonPhaseOver(h) <==> h.talon.talonTakenCount == TalonSize)
      && (TalonPhaseOver(h) ==> forall p :: 0 <= p < NumPlayers ==> q[p] == 0)
      && (!TalonPhaseOver(h) ==> ReceiverOrder(g.data.declarer, g.data.winningBid, h.talon.currentPlayer, q))
  {
    var t := g.talon;
    var cur := t.currentPlayer;
    var h := TalonDoApplyAction(g, action);
    var q' := t.cardsToTake[cur := t.cardsToTake[cur] - 1];
    assert h.talon.cardsToTake == q' && h.talon.talonTakenCount == t.talonTakenCount + 1;
    assert h.talon.currentPlayer == NextReceiver(cur, q', t.talonTakenCount + 1);
    assert h.data.declarer == g.data.declarer && h.data.winningBid == g.data.winningBid;
    OrderAfterDraw(g.data.declarer, g.data.winningBid, cur, t.cardsToTake, t.talonTakenCount);
  }

  /** Every draw keeps the invariant. */
  lemma TalonStepKeepsInv(g: Game, action: int)
    requires TalonInv(g) && !TalonPhaseOver(g)
    requires action in TalonLegalActions(g)
    ensures TalonInv(TalonDoApplyAction(g, action))
  {
    DrawKeepsSlotsAgree(g, action);
    DrawKeepsHandsAndQuotas(g, action);
    DrawKeepsReceiverOrder(g, action);
  }

  /** While the phase lasts a card can be drawn: the untaken slots number
      six less the cards handed out. */
  lemma TalonCanDraw(g: Game)
    requires TalonInv(g) && !TalonPhaseOver(g)
    ensures |TalonLegalActions(g)| == TalonSize - g.talon.talonTakenCount > 0
  {
    TakenAndUntaken(g.talon.talonTaken, TalonSize);
  }

  /** When the phase ends every player holds nine cards plus its quota and
      the talon is empty. */
  lemma TalonEndsWithQuotas(g: Game)
    requires TalonInv(g) && TalonPhaseOver(g)
    ensures forall p :: 0 <= p < NumPlayers ==>
      CountAt(g.data.deck, p, DeckSize) == PlayerHandSize + Quota(g.data.declarer, g.data.winningBid, p)
    ensures forall c :: 0 <= c < DeckSize ==> 0 <= g.data.deck[c] < NumPlayers
  {
    TakenAndUntaken(g.talon.talonTaken, TalonSize);
  }

  /** The solo the source deals: the declarer, owed nothing, is the
      receiver and stays it, owing one more card with each draw. */
  predicate SoloAsWrittenInv(g: Game)
  {
    var t := g.talon;
    var d := g.data.declarer;
    && 0 <= d < NumPlayers && g.data.winningBid == 0
    && SlotsAgree(g)
    && 0 <= t.talonTakenCount <= TalonSize
    && (TalonPhaseOver(g) <==> t.talonTakenCount == TalonSize)
    && (!TalonPhaseOver(g) ==> t.currentPlayer == d)
    && t.cardsToTake[d] == -t.talonTakenCount
    && CountAt(g.data.deck, d, DeckSize) == PlayerHandSize + t.talonTakenCount
  }

  lemma StartSoloAsWritten(g: Game)
    requires 0 <= g.data.declarer < NumPlayers && g.data.winningBid == 0
    requires DealtDeck(g.data.deck)
    ensures SoloAsWrittenInv(StartTalonPhaseAsWritten(g))
  {
    FreshSlotsAgree(StartTalonPhaseAsWritten(g));
  }

  lemma SoloAsWrittenStep(g: Game, action: int)
    requires SoloAsWrittenInv(g) && !TalonPhaseOver(g)
    requires action in TalonLegalActions(g)
    ensures SoloAsWrittenInv(TalonDoApplyAction(g, action))
  {
    DrawKeepsSlotsAgree(g, action);
  }

  /** The discrepancy: at the end of a solo talon as written the declarer
      holds fifteen cards and each other player nine, where the quotas say
      nine for the declarer and eleven for the others. */
  lemma SoloAsWrittenEnd(g: Game)
    requires SoloAsWrittenInv(g) && TalonPhaseOver(g)
    ensures CountAt(g.data.deck, g.data.declarer, DeckSize) == PlayerHandSize + TalonSize
    ensures PlayerHandSize + Quota(g.data.declarer, 0, g.data.declarer) == PlayerHandSize
  {
  }
}
