/** DealHelper::PostSetup (hungarian_tarok.cc): plays the Setup phase of a
    new game so that chosen cards land in chosen hands. A card with a
    requested destination goes to that player; any other card goes to the
    first player with room whose free places exceed the requested cards
    still to come for it. */
module DealHelpers {
  import opened Wrappers
  import opened Cards
  import opened TarokRecords
  import opened Decks
  import opened SetupRules
  import BiddingRules
  import GameRules
  import opened TarokEngine

  /** card_destinations_: for each card, the requested hand, if any. */
  type Destinations = s: seq<Option<int>> | |s| == DeckSize witness seq(DeckSize, _ => None)

  predicate ValidDestinations(dest: Destinations)
  {
    forall c :: 0 <= c < DeckSize && dest[c].Some? ==> 0 <= dest[c].value < NumPlayers
  }

  /** The number of cards from lo up to the last dealt card requested for
      player p. */
  function Destined(dest: Destinations, p: int, lo: int): nat
    requires 0 <= lo <= DealtCards
    decreases DealtCards - lo
  {
    if lo == DealtCards then 0
    else (if dest[lo] == Some(p) then 1 else 0) + Destined(dest, p, lo + 1)
  }

  function DestinedSum(dest: Destinations, lo: int): nat
    requires 0 <= lo <= DealtCards
  {
    Destined(dest, 0, lo) + Destined(dest, 1, lo) + Destined(dest, 2, lo) + Destined(dest, 3, lo)
  }

  /** The requests can be met: no hand is asked for more than nine of the
      dealt cards. */
  predicate Feasible(dest: Destinations)
  {
    forall p :: 0 <= p < NumPlayers ==> Destined(dest, p, 0) <= PlayerHandSize
  }

  /** Each card is requested for at most one player. */
  lemma {:induction false} DestinedTotal(dest: Destinations, lo: int)
    requires 0 <= lo <= DealtCards
    ensures DestinedSum(dest, lo) <= DealtCards - lo
    decreases DealtCards - lo
  {
    if lo < DealtCards {
      DestinedTotal(dest, lo + 1);
      var here := (if dest[lo] == Some(0) then 1 else 0) + (if dest[lo] == Some(1) then 1 else 0)
        + (if dest[lo] == Some(2) then 1 else 0) + (if dest[lo] == Some(3) then 1 else 0);
      assert here <= 1;
      assert DestinedSum(dest, lo) == here + DestinedSum(dest, lo + 1);
    }
  }

  /** When every card requested for p lies in p's hand, the requests from
      lo on and p's cards below lo together are at most p's dealt cards. */
  lemma {:induction false} DestinedWithinHand(dest: Destinations, deck: Deck, p: int, lo: int)
    requires 0 <= lo <= DealtCards
    requires forall c :: 0 <= c < DealtCards && dest[c] == Some(p) ==> deck[c] == p
    ensures Destined(dest, p, lo) + CountAt(deck, p, lo) <= CountAt(deck, p, DealtCards)
    decreases DealtCards - lo
  {
    if lo < DealtCards {
      DestinedWithinHand(dest, deck, p, lo + 1);
    }
  }

  /** The search for a receiver of an unrequested card: the first legal
      player whose free places exceed its outstanding requests, or -1. */
  method PickReceiver(legal: seq<int>, counts: IntQuad, remaining: IntQuad) returns (target: int)
    requires forall i :: 0 <= i < |legal| ==> 0 <= legal[i] < NumPlayers
    ensures target == -1 ==>
      forall i :: 0 <= i < |legal| ==> PlayerHandSize - counts[legal[i]] <= remaining[legal[i]]
    ensures target != -1 ==>
      exists i :: (0 <= i < |legal| && legal[i] == target
        && PlayerHandSize - counts[legal[i]] > remaining[legal[i]]
        && forall j :: 0 <= j < i ==> PlayerHandSize - counts[legal[j]] <= remaining[legal[j]])
  {
    target := -1;
    for i := 0 to |legal|
      invariant forall j :: 0 <= j < i ==> PlayerHandSize - counts[legal[j]] <= remaining[legal[j]]
    {
      var p := legal[i];
      var room := PlayerHandSize - counts[p];
      if room > remaining[p] {
        target := p;
        return;
      }
    }
  }

  /** A deal during Setup moves the cursor card to the receiver's hand;
      the deal of the last dealt card starts Bidding, which leaves the
      deck alone. */
  lemma SetupDeal(g: Game, action: int)
    requires GameRules.GameInv(g) && g.phase == SetupPhase && action in GameRules.LegalActions(g)
    ensures var h := GameRules.DoApplyAction(g, action);
      && h.data.deck == g.data.deck[g.setup.currentCard := action]
      && (g.setup.currentCard + 1 < DealtCards ==>
            h.phase == SetupPhase && h.setup.currentCard == g.setup.currentCard + 1
            && forall p :: 0 <= p < NumPlayers ==>
                 h.setup.handSizes[p] == g.setup.handSizes[p] + (if p == action then 1 else 0))
      && (g.setup.currentCard + 1 == DealtCards ==> h.phase == BiddingPhase)
  {
    assert action in SetupLegalActions(g);
    SetupLegalActionsAreRoom(g);
    SetupDealResult(g, action);
    SetupDealMoves(g, action);
    var p := SetupDoApplyAction(g, action);
    if SetupPhaseOver(p) {
      SetupDealAdvances(p);
    }
  }

  /** The phase's own step: the cursor card to the receiver, the cursor
      and the receiver's hand size one up. */
  lemma SetupDealMoves(g: Game, action: int)
    requires 0 <= action < NumPlayers && !SetupPhaseOver(g) && 0 <= g.setup.currentCard
    ensures var p := SetupDoApplyAction(g, action);
      && p.phase == g.phase
      && p.data.deck == g.data.deck[g.setup.currentCard := action]
      && p.setup.currentCard == g.setup.currentCard + 1
      && forall q :: 0 <= q < NumPlayers ==>
           p.setup.handSizes[q] == g.setup.handSizes[q] + (if q == action then 1 else 0)
  {
  }

  /** Leaving Setup keeps the deck. */
  lemma SetupDealAdvances(p: Game)
    requires p.phase == SetupPhase && GameRules.PhaseOver(p) && GameRules.AdvanceReady(p)
    ensures GameRules.AdvancePhase(p).data.deck == p.data.deck
    ensures GameRules.AdvancePhase(p).phase == BiddingPhase
  {
    assert GameRules.AdvancePhase(p) == BiddingRules.StartBiddingPhase(p.(phase := BiddingPhase));
  }

  /** The game after a deal: the phase's own step, advanced to Bidding
      when it dealt the last card. */
  lemma SetupDealResult(g: Game, action: int)
    requires GameRules.GameInv(g) && g.phase == SetupPhase && action in GameRules.LegalActions(g)
    requires 0 <= action < NumPlayers && !SetupPhaseOver(g) && 0 <= g.setup.currentCard
    ensures var p := SetupDoApplyAction(g, action);
      && !GameRules.GameOver(p)
      && (SetupPhaseOver(p) ==>
            GameRules.AdvanceReady(p) && GameRules.DoApplyAction(g, action) == GameRules.AdvancePhase(p))
      && (!SetupPhaseOver(p) ==> GameRules.DoApplyAction(g, action) == p)
  {
    GameRules.SetupStep(g, action);
    assert GameRules.PhaseDoApplyAction(g, action) == SetupDoApplyAction(g, action);
  }

  /** The first loop of PostSetup: the requests per player. */
  method CountRequests(dest: Destinations) returns (remaining: IntQuad)
    requires ValidDestinations(dest)
    ensures forall p :: 0 <= p < NumPlayers ==> remaining[p] == Destined(dest, p, 0)
  {
    remaining := ZeroQuad;
    for card := 0 to DealtCards
      invariant forall p :: 0 <= p < NumPlayers ==>
        remaining[p] == Destined(dest, p, 0) - Destined(dest, p, card)
    {
      if dest[card].Some? {
        var p := dest[card].value;
        remaining := remaining[p := remaining[p] + 1];
      }
    }
  }

  /** A requested card whose hand is already full shows the requests
      cannot be met. */
  lemma FullHandMeansInfeasible(dest: Destinations, counts: IntQuad, remaining: IntQuad, current: int)
    requires 0 <= current < DealtCards && dest[current].Some?
    requires forall p :: 0 <= p < NumPlayers ==> remaining[p] == Destined(dest, p, current)
    requires Feasible(dest) ==>
      forall p :: 0 <= p < NumPlayers ==> counts[p] + remaining[p] <= PlayerHandSize
    requires 0 <= dest[current].value < NumPlayers && counts[dest[current].value] >= PlayerHandSize
    ensures !Feasible(dest)
  {
  }

  /** An unrequested card always has a receiver: the legal players'
      free places add up to more than the requests still to come, so one
      of them has room beyond its own requests. */
  lemma ReceiverExists(dest: Destinations, counts: IntQuad, remaining: IntQuad, current: int, legal: seq<int>)
    requires 0 <= current < DealtCards && dest[current].None?
    requires counts[0] + counts[1] + counts[2] + counts[3] == current
    requires forall p :: 0 <= p < NumPlayers ==> remaining[p] == Destined(dest, p, current)
    requires forall p :: p in legal <==> 0 <= p < NumPlayers && counts[p] < PlayerHandSize
    ensures exists i ::
      0 <= i < |legal| && 0 <= legal[i] < NumPlayers && PlayerHandSize - counts[legal[i]] > remaining[legal[i]]
  {
    DestinedTotal(dest, current + 1);
    var p :| 0 <= p < NumPlayers && PlayerHandSize - counts[p] > remaining[p];
    assert p in legal;
    var i :| 0 <= i < |legal| && legal[i] == p;
  }

  /** What PostSetup's dealing loop keeps: the game invariant; during
      Setup the cursor and hand sizes agree with the loop's counters; the
      outstanding requests are those of the cards not yet dealt; when the
      requests can be met, no hand is promised more than it can take; and
      every requested card dealt so far went to its requested hand. */
  predicate DealInv(g: Game, dest: Destinations, counts: IntQuad, remaining: IntQuad, current: int)
  {
    GameRules.GameInv(g) && DealCounted(g, dest, counts, remaining, current)
  }

  /** The part of DealInv about the loop's own counters. */
  predicate DealCounted(g: Game, dest: Destinations, counts: IntQuad, remaining: IntQuad, current: int)
  {
    && 0 <= current <= DealtCards
    && (g.phase == SetupPhase ==>
          g.setup.currentCard == current && forall p :: 0 <= p < NumPlayers ==> g.setup.handSizes[p] == counts[p])
    && (g.phase != SetupPhase ==> g.phase == BiddingPhase && current == DealtCards)
    && counts[0] + counts[1] + counts[2] + counts[3] == current
    && (forall p :: 0 <= p < NumPlayers ==> remaining[p] == Destined(dest, p, current))
    && (Feasible(dest) ==>
          forall p :: 0 <= p < NumPlayers ==> counts[p] + remaining[p] <= PlayerHandSize)
    && (forall c :: 0 <= c < current && dest[c].Some? ==> g.data.deck[c] == dest[c].value)
  }

  /** The outstanding requests once the cursor card is dealt. */
  function Outstanding(dest: Destinations, remaining: IntQuad, current: int): IntQuad
    requires ValidDestinations(dest) && 0 <= current < DealtCards
  {
    if dest[current].Some? then remaining[dest[current].value := remaining[dest[current].value] - 1]
    else remaining
  }

  /** The counters after a deal agree with a state that dealt the cursor
      card to target. */
  lemma DealCounters(g: Game, h: Game, dest: Destinations, counts: IntQuad, remaining: IntQuad,
                     current: int, target: int)
    requires ValidDestinations(dest) && 0 <= target < NumPlayers && current < DealtCards
    requires DealCounted(g, dest, counts, remaining, current) && g.phase == SetupPhase
    requires dest[current].Some? ==> target == dest[current].value
    requires Feasible(dest) ==>
      PlayerHandSize - counts[target] > Outstanding(dest, remaining, current)[target]
    requires h.data.deck == g.data.deck[current := target]
    requires current + 1 < DealtCards ==>
      h.phase == SetupPhase && h.setup.currentCard == current + 1
      && forall p :: 0 <= p < NumPlayers ==>
           h.setup.handSizes[p] == counts[p] + (if p == target then 1 else 0)
    requires current + 1 == DealtCards ==> h.phase == BiddingPhase
    ensures DealCounted(h, dest, counts[target := counts[target] + 1], Outstanding(dest, remaining, current), current + 1)
  {
  }

  /** Dealing the cursor card to its requested hand, or to a hand with
      room beyond its own requests, keeps the loop's invariant. */
  lemma DealStep(g: Game, dest: Destinations, counts: IntQuad, remaining: IntQuad, current: int, target: int)
    requires ValidDestinations(dest)
    requires DealInv(g, dest, counts, remaining, current) && g.phase == SetupPhase
    requires target in GameRules.LegalActions(g)
    requires dest[current].Some? ==> target == dest[current].value
    requires Feasible(dest) ==>
      PlayerHandSize - counts[target] > Outstanding(dest, remaining, current)[target]
    ensures DealCounted(GameRules.DoApplyAction(g, target), dest, counts[target := counts[target] + 1],
                        Outstanding(dest, remaining, current), current + 1)
  {
    var h := GameRules.DoApplyAction(g, target);
    assert target in SetupRules.SetupLegalActions(g);
    SetupRules.SetupLegalActionsAreRoom(g);
    SetupDeal(g, target);
    DealCounters(g, h, dest, counts, remaining, current, target);
  }

  /** The receiver of the cursor card: its requested hand, which must
      still have room, or for an unrequested card the first legal seat
      with room beyond its own outstanding requests. Fails only when the
      requests cannot be met. */
  method ChooseReceiver(legal: seq<int>, dest: Destinations, counts: IntQuad, remaining: IntQuad, current: int)
    returns (ok: bool, target: int)
    requires ValidDestinations(dest) && 0 <= current < DealtCards
    requires forall p :: p in legal <==> 0 <= p < NumPlayers && counts[p] < PlayerHandSize
    requires counts[0] + counts[1] + counts[2] + counts[3] == current
    requires forall p :: 0 <= p < NumPlayers ==> remaining[p] == Destined(dest, p, current)
    requires Feasible(dest) ==>
      forall p :: 0 <= p < NumPlayers ==> counts[p] + remaining[p] <= PlayerHandSize
    ensures ok ==> target in legal && (dest[current].Some? ==> target == dest[current].value)
    ensures ok && Feasible(dest) ==>
      PlayerHandSize - counts[target] > Outstanding(dest, remaining, current)[target]
    ensures !ok ==> !Feasible(dest)
  {
    assert forall i :: 0 <= i < |legal| ==> legal[i] in legal;
    if dest[current].Some? {
      target := dest[current].value;
      if target !in legal {
        FullHandMeansInfeasible(dest, counts, remaining, current);
        return false, target;
      }
      assert Feasible(dest) ==> counts[target] + remaining[target] <= PlayerHandSize;
    } else {
      ReceiverExists(dest, counts, remaining, current, legal);
      target := PickReceiver(legal, counts, remaining);
      if target == -1 {
        assert false;
      }
    }
    ok := true;
  }

  /** One pass of the dealing loop: deals the cursor card, or reports
      that the requested hand is full. */
  method DealNext(state: TarokState, dest: Destinations, counts: IntQuad, remaining: IntQuad, current: int)
    returns (ok: bool, counts': IntQuad, remaining': IntQuad)
    requires ValidDestinations(dest)
    requires DealInv(state.Snapshot(), dest, counts, remaining, current) && state.phase == SetupPhase
    modifies state
    ensures ok ==> DealInv(state.Snapshot(), dest, counts', remaining', current + 1)
    ensures !ok ==> !Feasible(dest)
  {
    ghost var g := state.Snapshot();
    var legal := GameRules.LegalActions(state.Snapshot());
    assert legal == SetupRules.SetupLegalActions(g);
    SetupRules.SetupLegalActionsAreRoom(g);
    var target;
    ok, target := ChooseReceiver(legal, dest, counts, remaining, current);
    if !ok {
      return false, counts, remaining;
    }
    remaining' := Outstanding(dest, remaining, current);
    counts' := counts[target := counts[target] + 1];
    DealStep(g, dest, counts, remaining, current, target);
    state.DoApplyAction(target);
  }

  /** The loop's invariant holds for a new game before the first deal. */
  lemma DealStart(dest: Destinations, remaining: IntQuad)
    requires forall p :: 0 <= p < NumPlayers ==> remaining[p] == Destined(dest, p, 0)
    ensures DealInv(NewGame(), dest, ZeroQuad, remaining, 0)
  {
    GameRules.NewGameInv();
  }

  /** A finished deal honoured every request, so the requests were
      feasible. */
  lemma DealEnd(g: Game, dest: Destinations, counts: IntQuad, remaining: IntQuad)
    requires ValidDestinations(dest)
    requires DealInv(g, dest, counts, remaining, DealtCards) && g.phase != SetupPhase
    ensures Feasible(dest)
  {
    forall p | 0 <= p < NumPlayers
      ensures Destined(dest, p, 0) <= PlayerHandSize
    {
      DestinedWithinHand(dest, g.data.deck, p, 0);
      CountStable(g.data.deck, p, DealtCards, DeckSize);
    }
  }

  /** PostSetup: fails (a fatal error in the source) exactly when some
      hand is asked for more than nine cards; otherwise the game is in
      Bidding with every requested card in its requested hand. */
  method PostSetup(dest: Destinations) returns (r: Option<TarokState>)
    requires ValidDestinations(dest)
    ensures r.Some? <==> Feasible(dest)
    ensures r.Some? ==>
      && fresh(r.value) && r.value.phase == BiddingPhase
      && GameRules.GameInv(r.value.Snapshot())
      && forall c :: 0 <= c < DealtCards && dest[c].Some? ==> r.value.data.deck[c] == dest[c].value
  {
    var state := new TarokState();
    var destinedRemaining := CountRequests(dest);
    var counts: IntQuad := ZeroQuad;
    var current := 0;
    DealStart(dest, destinedRemaining);
    while state.phase == SetupPhase
      invariant fresh(state)
      invariant DealInv(state.Snapshot(), dest, counts, destinedRemaining, current)
      decreases DealtCards - current
    {
      var ok;
      ok, counts, destinedRemaining := DealNext(state, dest, counts, destinedRemaining, current);
      if !ok {
        return None;
      }
      current := current + 1;
    }
    DealEnd(state.Snapshot(), dest, counts, destinedRemaining);
    r := Some(state);
  }
}
