/** HungarianTarokState (hungarian_tarok.cc, phases.cc): the state object
    whose methods update the shared record, the phase tag and the six
    per-phase records in place. Each method is proved to leave the state
    the rule functions of the phase modules describe, so the lemmas proved
    about those functions hold of the object. */
module TarokEngine {
  import opened Wrappers
  import opened Cards
  import opened TarokRecords
  import opened Decks
  import opened AnnouncementCodec
  import SetupRules
  import BiddingRules
  import TalonRules
  import SkartRules
  import AnnouncementRules
  import PlayRules
  import GameRules

  class TarokState {
    var data: GameData
    var phase: PhaseType
    var setup: SetupState
    var bidding: BiddingState
    var talon: TalonState
    var skart: SkartState
    var announcements: AnnouncementsState
    var play: PlayState

    /** The whole state as a value. */
    function Snapshot(): Game
      reads this
    {
      Game(data, phase, setup, bidding, talon, skart, announcements, play)
    }

    /** A new game: Setup, every card in the talon, nobody holding Pagat,
        declarer 0, no bid, no partner, everybody an opponent. */
    constructor ()
      ensures Snapshot() == NewGame()
      ensures GameRules.GameInv(Snapshot())
    {
      phase := SetupPhase;
      data := GameData(seq(DeckSize, _ => Talon), -1, 0, -1, false, None,
                       FreshAnnouncementSide(), FreshAnnouncementSide(),
                       [Opponents, Opponents, Opponents, Opponents], [], []);
      setup := SetupState(ZeroQuad, 0);
      bidding := DefaultBidding;
      talon := DefaultTalon;
      skart := DefaultSkart;
      announcements := DefaultAnnouncements;
      play := DefaultPlay;
      GameRules.NewGameInv();
    }

    /** Clone: a new object holding a copy of every record. */
    method Clone() returns (c: TarokState)
      ensures fresh(c) && c.Snapshot() == Snapshot()
    {
      c := new TarokState();
      c.data := data;
      c.phase := phase;
      c.setup := setup;
      c.bidding := bidding;
      c.talon := talon;
      c.skart := skart;
      c.announcements := announcements;
      c.play := play;
    }

    /** PlayerHand: the cards located in the player's hand, ascending. */
    method PlayerHand(player: int) returns (hand: seq<int>)
      ensures hand == HandCards(data.deck, player)
      ensures StrictlyAscending(hand)
      ensures forall c :: c in hand <==> 0 <= c < DeckSize && data.deck[c] == player
    {
      hand := [];
      for card := 0 to DeckSize
        invariant hand == CardsBelow(data.deck, player, card)
      {
        if data.deck[card] == player {
          hand := hand + [card];
        }
      }
    }

    // Setup.

    method SetupDoApplyAction(action: int)
      requires 0 <= action < NumPlayers
      requires !SetupRules.SetupPhaseOver(Snapshot()) && 0 <= setup.currentCard
      modifies this
      ensures Snapshot() == SetupRules.SetupDoApplyAction(old(Snapshot()), action)
    {
      if setup.currentCard == Pagat {
        data := data.(pagatHolder := action);
      }
      data := data.(deck := data.deck[setup.currentCard := action]);
      setup := setup.(handSizes := setup.handSizes[action := setup.handSizes[action] + 1]);
      setup := setup.(currentCard := setup.currentCard + 1);
    }

    // Bidding.

    method StartBiddingPhase()
      requires 0 <= data.deck[Skiz] < NumPlayers
      requires 0 <= data.deck[Pagat] < NumPlayers
      requires 0 <= data.deck[XXI] < NumPlayers
      modifies this
      ensures Snapshot() == BiddingRules.StartBiddingPhase(old(Snapshot()))
    {
      bidding := DefaultBidding;
      data := data.(declarer := 0, winningBid := -1, fullBid := false, partner := None);
      data := data.(declarerSide := FreshAnnouncementSide(), opponentsSide := FreshAnnouncementSide());
      data := data.(playerSides := [Opponents, Opponents, Opponents, Opponents]);
      data := data.(tricks := [], trickWinners := []);
      bidding := bidding.(hasHonour := bidding.hasHonour[data.deck[Skiz] := true]);
      bidding := bidding.(hasHonour := bidding.hasHonour[data.deck[Pagat] := true]);
      bidding := bidding.(hasHonour := bidding.hasHonour[data.deck[XXI] := true]);
    }

    method BiddingDoApplyAction(action: int)
      requires !BiddingRules.BiddingPhaseOver(Snapshot()) && 0 <= bidding.currentPlayer < NumPlayers
      requires action in BiddingRules.BiddingLegalActions(Snapshot())
      modifies this
      ensures Snapshot() == BiddingRules.BiddingDoApplyAction(old(Snapshot()), action)
    {
      var cur := bidding.currentPlayer;
      if action == BiddingRules.StandardBid {
        if !bidding.wasHeld && bidding.hasBid[cur] {
          bidding := bidding.(wasHeld := true);
        } else {
          bidding := bidding.(lowestBid := bidding.lowestBid - 1, wasHeld := false);
        }
        data := data.(declarer := cur);
        bidding := bidding.(hasBid := bidding.hasBid[cur := true]);
      } else {
        bidding := bidding.(hasPassed := bidding.hasPassed[cur := true]);
      }
      assert Snapshot() == BiddingRules.RecordMove(old(Snapshot()), action);
      BiddingNextPlayer();
    }

    /** The skip loop: the first seat after cur that has not passed, or
        cur itself when every other seat has passed. */
    static method SkipPassed(passed: BoolQuad, cur: int) returns (next: int)
      requires 0 <= cur < NumPlayers
      ensures next == BiddingRules.SkipPassed(passed, NextSeat(cur), cur)
    {
      next := (cur + 1) % NumPlayers;
      while passed[next] && next != cur
        invariant 0 <= next < NumPlayers
        invariant BiddingRules.SkipPassed(passed, next, cur) == BiddingRules.SkipPassed(passed, NextSeat(cur), cur)
        decreases Ahead(next, cur)
      {
        next := (next + 1) % NumPlayers;
      }
    }

    /** Moves the turn to the next seat that has not passed, ending the
        auction at a held zero, at the declarer, or when everyone passed. */
    method BiddingNextPlayer()
      requires 0 <= bidding.currentPlayer < NumPlayers
      modifies this
      ensures Snapshot() == BiddingRules.BiddingNextPlayer(old(Snapshot()))
    {
      if bidding.lowestBid == 0 && bidding.wasHeld {
        bidding := bidding.(currentPlayer := TerminalPlayerId);
        return;
      }
      var cur := bidding.currentPlayer;
      var next := SkipPassed(bidding.hasPassed, cur);
      if next == data.declarer {
        bidding := bidding.(currentPlayer := TerminalPlayerId);
        return;
      }
      if next == cur {
        bidding := bidding.(currentPlayer := TerminalPlayerId, allPassed := true);
        data := data.(declarer := -1, winningBid := -1);
        return;
      }
      bidding := bidding.(currentPlayer := next);
    }

    // Talon.

    /** The quota loop: the declarer is owed the winning number, and the
        remaining cards are handed round one at a time from the seat after
        the declarer, skipping the declarer. */
    static method ShareTalon(d: int, bid: int) returns (quotas: IntQuad)
      requires 0 <= d < NumPlayers
      ensures quotas == TalonRules.TalonQuotas(d, bid)
    {
      quotas := ZeroQuad[d := bid];
      var remaining := TalonSize - bid;
      var player := (d + 1) % NumPlayers;
      ghost var full, part := 0, 0;
      TalonRules.SharingStart(d, bid);
      while remaining > 0
        invariant TalonRules.SharingInv(d, bid, quotas, remaining, player, full, part)
        decreases 2 * remaining + (if player == d then 1 else 0)
      {
        ghost var before := (quotas, remaining, player, full, part);
        if player != d {
          quotas := quotas[player := quotas[player] + 1];
          remaining := remaining - 1;
          if part == 2 {
            full, part := full + 1, 0;
          } else {
            part := part + 1;
          }
        }
        player := (player + 1) % NumPlayers;
        TalonRules.SharingStep(d, bid, before.0, before.1, before.2, before.3, before.4,
                               quotas, remaining, player, full, part);
      }
      TalonRules.SharingDone(d, bid, quotas, remaining, player, full, part);
    }

    /** The cards lying in the talon, ascending. */
    method CollectTalon() returns (cards: seq<int>)
      ensures cards == CardsBelow(data.deck, Talon, DeckSize)
    {
      cards := [];
      for card := 0 to DeckSize
        invariant cards == CardsBelow(data.deck, Talon, card)
      {
        if data.deck[card] == Talon {
          cards := cards + [card];
        }
      }
    }

    /** StartTalonPhase: the quotas, the first receiver (the seat after the
        declarer in a solo) and the talon cards. */
    method StartTalonPhase()
      requires 0 <= data.declarer < NumPlayers
      requires CountAt(data.deck, Talon, DeckSize) == TalonSize
      modifies this
      ensures Snapshot() == TalonRules.StartTalonPhase(old(Snapshot()))
    {
      talon := DefaultTalon;
      var d := data.declarer;
      var quotas := ShareTalon(d, data.winningBid);
      var cards := CollectTalon();
      talon := talon.(cardsToTake := quotas, talonCards := cards);
      talon := talon.(currentPlayer := if data.winningBid == 0 then NextSeat(d) else d);
    }

    method TalonDoApplyAction(action: int)
      requires 0 <= action < TalonSize && !talon.talonTaken[action]
      requires !TalonRules.TalonPhaseOver(Snapshot()) && 0 <= talon.currentPlayer < NumPlayers
      requires |talon.talonCards| == TalonSize && 0 <= talon.talonCards[action] < DeckSize
      modifies this
      ensures Snapshot() == TalonRules.TalonDoApplyAction(old(Snapshot()), action)
    {
      var cur := talon.currentPlayer;
      talon := talon.(talonTaken := talon.talonTaken[action := true]);
      data := data.(deck := data.deck[talon.talonCards[action] := cur]);
      talon := talon.(talonTakenCount := talon.talonTakenCount + 1);
      talon := talon.(cardsToTake := talon.cardsToTake[cur := talon.cardsToTake[cur] - 1]);
      if talon.talonTakenCount == TalonSize {
        talon := talon.(currentPlayer := TerminalPlayerId);
      } else if talon.cardsToTake[cur] == 0 {
        talon := talon.(currentPlayer := (cur + 1) % NumPlayers);
      }
    }

    // Skart.

    /** The number of cards in each hand. */
    method CountHands() returns (sizes: IntQuad)
      ensures sizes == SkartRules.HandSizes(data.deck)
    {
      sizes := ZeroQuad;
      for card := 0 to DeckSize
        invariant forall p :: 0 <= p < NumPlayers ==> sizes[p] == CountAt(data.deck, p, card)
      {
        var owner := data.deck[card];
        if 0 <= owner < NumPlayers {
          sizes := sizes[owner := sizes[owner] + 1];
        }
      }
    }

    /** StartSkartPhase: the hand sizes, and the first to discard (the
        seat after the declarer in a solo). */
    method StartSkartPhase()
      requires 0 <= data.declarer < NumPlayers
      modifies this
      ensures Snapshot() == SkartRules.StartSkartPhase(old(Snapshot()))
    {
      skart := DefaultSkart;
      var sizes := CountHands();
      skart := skart.(handSizes := sizes);
      skart := skart.(currentPlayer := if data.winningBid == 0 then NextSeat(data.declarer) else data.declarer);
    }

    method SkartDoApplyAction(action: int)
      requires 0 <= action < DeckSize && data.deck[action] == skart.currentPlayer
      requires !SkartRules.SkartPhaseOver(Snapshot()) && 0 <= skart.currentPlayer < NumPlayers
      modifies this
      ensures Snapshot() == SkartRules.SkartDoApplyAction(old(Snapshot()), action)
    {
      var cur := skart.currentPlayer;
      if cur == data.declarer {
        data := data.(deck := data.deck[action := DeclarerSkart]);
      } else {
        data := data.(deck := data.deck[action := OpponentsSkart]);
      }
      skart := skart.(cardsDiscarded := skart.cardsDiscarded + 1);
      skart := skart.(handSizes := skart.handSizes[cur := skart.handSizes[cur] - 1]);
      if skart.handSizes[cur] == PlayerHandSize {
        skart := skart.(currentPlayer := (cur + 1) % NumPlayers);
        if skart.handSizes[skart.currentPlayer] == 0 {
          skart := skart.(currentPlayer := TerminalPlayerId);
        }
      }
    }

    // Announcements.

    /** The number of taroks in each hand. */
    method CountTaroks() returns (counts: IntQuad)
      ensures counts == AnnouncementRules.TarokCounts(data.deck)
    {
      counts := ZeroQuad;
      for card := 0 to DeckSize
        invariant forall p :: 0 <= p < NumPlayers ==>
          counts[p] == CountAt(data.deck, p, if card < NumTaroks then card else NumTaroks)
      {
        if CardSuit(card) == Tarok {
          var owner := data.deck[card];
          if 0 <= owner < NumPlayers {
            counts := counts[owner := counts[owner] + 1];
          }
        }
      }
    }

    method StartAnnouncementsPhase()
      modifies this
      ensures Snapshot() == AnnouncementRules.StartAnnouncementsPhase(old(Snapshot()))
    {
      announcements := DefaultAnnouncements;
      announcements := announcements.(currentPlayer := data.declarer);
      var counts := CountTaroks();
      announcements := announcements.(tarokCounts := counts);
    }

    /** AnnouncementsCallPartner: the scan from XX down for the first tarok
        the declarer lacks, then each seat's side. */
    method AnnouncementsCallPartner(action: int)
      modifies this
      ensures Snapshot() == AnnouncementRules.AnnouncementsCallPartner(old(Snapshot()), action)
    {
      if action == AnnouncementRules.CallPartnerAction {
        var rank := 20;
        while rank >= 1
          invariant 0 <= rank <= 20
          invariant AnnouncementRules.HighestTarokNotHeld(data.deck, data.declarer, rank)
                 == AnnouncementRules.HighestTarokNotHeld(data.deck, data.declarer, MakeTarok(20) + 1)
          invariant data == old(data)
          decreases rank
        {
          var card := MakeTarok(rank);
          if data.deck[card] != data.declarer {
            var location := data.deck[card];
            data := data.(partner := if IsHandLocation(location) then Some(location) else None);
            break;
          }
          rank := rank - 1;
        }
      } else {
        data := data.(partner := None);
      }
      assert data.partner == AnnouncementRules.CalledPartner(old(Snapshot()), action);
      announcements := announcements.(partnerCalled := true, lastToSpeak := data.declarer);
      var sides := data.playerSides;
      for p := 0 to NumPlayers
        invariant forall q :: 0 <= q < p ==>
          sides[q] == AnnouncementRules.SidesFor(data.declarer, data.partner)[q]
      {
        sides := sides[p := if p == data.declarer || (data.partner.Some? && p == data.partner.value)
                            then Declarer else Opponents];
      }
      data := data.(playerSides := sides);
    }

    method AnnouncementsDoApplyAction(action: int)
      requires !AnnouncementRules.AnnouncementsPhaseOver(Snapshot())
      requires 0 <= announcements.currentPlayer < NumPlayers
      requires action in AnnouncementRules.AnnouncementsLegalActions(Snapshot())
      modifies this
      ensures Snapshot() == AnnouncementRules.AnnouncementsDoApplyAction(old(Snapshot()), action)
    {
      if !announcements.partnerCalled {
        AnnouncementsCallPartner(action);
        return;
      }
      if action == PassAction {
        AnnouncementsPass();
        return;
      }
      AnnouncementRules.CalledActionsMeaning(Snapshot(), action);
      AnnouncementsDeclare(action);
    }

    method AnnouncementsPass()
      requires 0 <= announcements.currentPlayer < NumPlayers
      modifies this
      ensures Snapshot() == AnnouncementRules.AnnouncementsPass(old(Snapshot()))
    {
      announcements := announcements.(currentPlayer := (announcements.currentPlayer + 1) % NumPlayers);
      if announcements.currentPlayer == announcements.lastToSpeak {
        announcements := announcements.(currentPlayer := TerminalPlayerId);
      }
      if announcements.currentPlayer == data.declarer {
        announcements := announcements.(firstRound := false);
      }
    }

    method AnnouncementsDeclare(action: int)
      requires 0 <= action < PassAction
      modifies this
      ensures Snapshot() == AnnouncementRules.AnnouncementsDeclare(old(Snapshot()), action)
    {
      var a := FromAction(action);
      var i := TypeIndex(a.kind);
      var own := AnnouncementRules.IsDeclarerSidePlayer(data, announcements.currentPlayer);
      var onDeclarers := if a.level == Contra then !own else own;
      if onDeclarers {
        data := data.(declarerSide := AnnouncementRules.Declare(data.declarerSide, i, a.level != Announce));
      } else {
        data := data.(opponentsSide := AnnouncementRules.Declare(data.opponentsSide, i, a.level != Announce));
      }
      announcements := announcements.(lastToSpeak := announcements.currentPlayer);
    }

    // Play.

    method StartPlayPhase()
      modifies this
      ensures Snapshot() == PlayRules.StartPlayPhase(old(Snapshot()))
    {
      play := DefaultPlay;
      play := play.(currentPlayer := data.declarer);
      play := play.(trickCaller := play.currentPlayer, trickCards := [], round := 0);
      data := data.(tricks := [], trickWinners := []);
    }

    method PlayDoApplyAction(action: int)
      requires 0 <= action < DeckSize && data.deck[action] == play.currentPlayer
      requires !PlayRules.PlayPhaseOver(Snapshot()) && |play.trickCards| < NumPlayers
      requires 0 <= play.trickCaller < NumPlayers
      requires forall i :: 0 <= i < |play.trickCards| ==> 0 <= play.trickCards[i] < DeckSize
      modifies this
      ensures Snapshot() == PlayRules.PlayDoApplyAction(old(Snapshot()), action)
    {
      data := data.(deck := data.deck[action := CurrentTrick]);
      play := play.(trickCards := play.trickCards + [action]);
      if |play.trickCards| == NumPlayers {
        ResolveTrick();
      } else {
        play := play.(currentPlayer := PlayRules.TruncatedRemainder(play.currentPlayer + 1, NumPlayers));
      }
    }

    /** The scan of ResolveTrick: a later card replaces the kept one when
        it beats it, and its seat, counted from the leader, becomes the
        winner. */
    static method ScanTrick(cards: seq<int>, caller: int) returns (winner: int)
      requires |cards| == NumPlayers && 0 <= caller < NumPlayers
      requires forall i :: 0 <= i < NumPlayers ==> 0 <= cards[i] < DeckSize
      ensures winner == PlayRules.TruncatedRemainder(caller + PlayRules.KeptCard(cards, NumPlayers), NumPlayers)
    {
      winner := caller;
      var winningCard := cards[0];
      ghost var kept := 0;
      for i := 1 to NumPlayers
        invariant kept == PlayRules.KeptCard(cards, i)
        invariant winningCard == cards[kept]
        invariant winner == (caller + kept) % NumPlayers
      {
        var card := cards[i];
        if CardBeats(card, winningCard) {
          winningCard := card;
          winner := PlayRules.TruncatedRemainder(caller + i, NumPlayers);
          kept := i;
        }
      }
    }

    /** Moves every card of the list to loc. */
    static method MoveCards(deck: Deck, cards: seq<int>, loc: int) returns (moved: Deck)
      requires forall i :: 0 <= i < |cards| ==> 0 <= cards[i] < DeckSize
      ensures moved == PlayRules.MoveAll(deck, cards, loc)
    {
      moved := deck;
      for j := 0 to |cards|
        invariant moved == PlayRules.MoveAll(deck, cards[..j], loc)
      {
        assert cards[..j + 1][..j] == cards[..j];
        moved := moved[cards[j] := loc];
      }
      assert cards[..|cards|] == cards;
    }

    /** ResolveTrick: the winner of the trick leads next and gets the
        cards in its won pile; the trick is recorded; the game ends after
        the ninth. */
    method ResolveTrick()
      requires |play.trickCards| == NumPlayers && 0 <= play.trickCaller < NumPlayers
      requires forall i :: 0 <= i < NumPlayers ==> 0 <= play.trickCards[i] < DeckSize
      modifies this
      ensures Snapshot() == PlayRules.ResolveTrick(old(Snapshot()))
    {
      var cards := play.trickCards;
      var winner := ScanTrick(cards, play.trickCaller);
      play := play.(trickCaller := winner, currentPlayer := winner);
      var deck := MoveCards(data.deck, cards, WonCardsLocation(winner));
      data := data.(deck := deck);
      var trick: Trick := cards;
      data := data.(tricks := data.tricks + [trick], trickWinners := data.trickWinners + [winner]);
      play := play.(trickCards := []);
      play := play.(round := play.round + 1);
      if play.round == NumRounds {
        play := play.(currentPlayer := TerminalPlayerId);
      }
    }

    // The game.

    /** AdvancePhase: the next phase in order, started. */
    method AdvancePhase()
      requires GameRules.PhaseOver(Snapshot()) && GameRules.AdvanceReady(Snapshot())
      modifies this
      ensures Snapshot() == GameRules.AdvancePhase(old(Snapshot()))
    {
      match phase
      case SetupPhase =>
        phase := BiddingPhase;
        StartBiddingPhase();
      case BiddingPhase =>
        var bidderCount := 0;
        for p := 0 to NumPlayers
          invariant bidderCount == BidderCount(bidding.hasBid, p)
        {
          if bidding.hasBid[p] {
            bidderCount := bidderCount + 1;
          }
        }
        BidderCountIsNumTrue(bidding.hasBid);
        data := data.(fullBid := bidderCount == 3, winningBid := bidding.lowestBid);
        phase := TalonPhase;
        StartTalonPhase();
      case TalonPhase =>
        phase := SkartPhase;
        StartSkartPhase();
      case SkartPhase =>
        phase := AnnouncementsPhase;
        StartAnnouncementsPhase();
      case AnnouncementsPhase =>
        phase := PlayPhase;
        StartPlayPhase();
    }

    /** DoApplyAction: the phase's action; then, unless the game is over,
        the next phase once this one is over. The game invariant is kept. */
    method DoApplyAction(action: int)
      requires GameRules.GameInv(Snapshot()) && !GameRules.IsTerminal(Snapshot())
      requires action in GameRules.LegalActions(Snapshot())
      modifies this
      ensures Snapshot() == GameRules.DoApplyAction(old(Snapshot()), action)
      ensures GameRules.GameInv(Snapshot())
    {
      GameRules.PhaseStepReady(Snapshot(), action);
      GameRules.GameStepKeepsInv(Snapshot(), action);
      PhaseDoApplyAction(action);
      if GameRules.GameOver(Snapshot()) {
        return;
      }
      if GameRules.PhaseOver(Snapshot()) {
        AdvancePhase();
      }
    }

    /** The current phase's own DoApplyAction. */
    method PhaseDoApplyAction(action: int)
      requires GameRules.ActionAccepted(Snapshot(), action)
      requires phase == PlayPhase ==> 0 <= play.trickCaller < NumPlayers
      modifies this
      ensures Snapshot() == GameRules.PhaseDoApplyAction(old(Snapshot()), action)
    {
      match phase {
        case SetupPhase => SetupDoApplyAction(action);
        case BiddingPhase => BiddingDoApplyAction(action);
        case TalonPhase => TalonDoApplyAction(action);
        case SkartPhase => SkartDoApplyAction(action);
        case AnnouncementsPhase => AnnouncementsDoApplyAction(action);
        case PlayPhase => PlayDoApplyAction(action);
      }
    }
  }

  /** The number of seats below n that bid. */
  function BidderCount(hasBid: BoolQuad, n: int): int
    requires 0 <= n <= NumPlayers
  {
    if n == 0 then 0 else BidderCount(hasBid, n - 1) + (if hasBid[n - 1] then 1 else 0)
  }

  /** Counting the bidders seat by seat gives the number of bidders. */
  lemma BidderCountIsNumTrue(hasBid: BoolQuad)
    ensures BidderCount(hasBid, NumPlayers) == BiddingRules.NumTrue(hasBid)
  {
    assert BidderCount(hasBid, 1) == (if hasBid[0] then 1 else 0);
    assert BidderCount(hasBid, 2) == (if hasBid[0] then 1 else 0) + (if hasBid[1] then 1 else 0);
  }
}
